/** A bounded view of a text: its first and last bytes around a counted omission, cut between characters. */
module Excerpts {
  import opened Basics

  // ---------------------------------------------------------------- UTF-8, section 4 of RFC 3629

  predicate Between(b: byte, low: int, high: int) {
    low <= b as int <= high
  }

  predicate Continues(b: byte) {
    Between(b, 0x80, 0xBF)
  }

  predicate Two(s: Bytes) {
    |s| >= 2 && Between(s[0], 0xC2, 0xDF) && Continues(s[1])
  }

  predicate Three(s: Bytes) {
    |s| >= 3 && Continues(s[1]) && Continues(s[2]) &&
    (|| (s[0] == 0xE0 && Between(s[1], 0xA0, 0xBF))
     || Between(s[0], 0xE1, 0xEC)
     || (s[0] == 0xED && Between(s[1], 0x80, 0x9F))
     || Between(s[0], 0xEE, 0xEF))
  }

  predicate Four(s: Bytes) {
    |s| >= 4 && Continues(s[1]) && Continues(s[2]) && Continues(s[3]) &&
    (|| (s[0] == 0xF0 && Between(s[1], 0x90, 0xBF))
     || Between(s[0], 0xF1, 0xF3)
     || (s[0] == 0xF4 && Between(s[1], 0x80, 0x8F)))
  }

  /** The length of the character at the front, or 0 if there is none. */
  function CharLen(s: Bytes): (n: nat)
    ensures n <= |s| && n <= 4
  {
    if |s| >= 1 && Between(s[0], 0x00, 0x7F) then 1
    else if Two(s) then 2
    else if Three(s) then 3
    else if Four(s) then 4
    else 0
  }

  predicate Utf8(s: Bytes)
    decreases |s|
  {
    s == [] || (CharLen(s) > 0 && Utf8(s[CharLen(s)..]))
  }

  /** A Unicode scalar value: a code point that is no surrogate. */
  predicate IsScalar(c: int) {
    0 <= c < 0xD800 || 0xE000 <= c < 0x11_0000
  }

  /** The bytes of one scalar value, by section 3 of RFC 3629. */
  function Encoded(c: int): Bytes
    requires IsScalar(c)
  {
    if c < 0x80 then [c as byte]
    else if c < 0x800 then [(0xC0 + c / 64) as byte, (0x80 + c % 64) as byte]
    else if c < 0x1_0000 then [(0xE0 + c / 4096) as byte, (0x80 + c / 64 % 64) as byte, (0x80 + c % 64) as byte]
    else [(0xF0 + c / 262144) as byte, (0x80 + c / 4096 % 64) as byte, (0x80 + c / 64 % 64) as byte, (0x80 + c % 64) as byte]
  }

  function EncodedAll(cs: seq<int>): Bytes
    requires forall i | 0 <= i < |cs| :: IsScalar(cs[i])
  {
    if cs == [] then [] else Encoded(cs[0]) + EncodedAll(cs[1..])
  }

  lemma EncodedIsChar(c: int, rest: Bytes)
    requires IsScalar(c)
    ensures CharLen(Encoded(c) + rest) == |Encoded(c)| && |Encoded(c)| > 0
  {
    var s := Encoded(c) + rest;
    assert forall i | 0 <= i < |Encoded(c)| :: s[i] == Encoded(c)[i];
  }

  /** Groups of six bits are read back from the number they make. */
  lemma SixBits(a: int, b: int, c: int, d: int)
    requires 0 <= a && 0 <= b < 64 && 0 <= c < 64 && 0 <= d < 64
    ensures var n := 262144 * a + 4096 * b + 64 * c + d;
            n / 262144 == a && n / 4096 == 64 * a + b && n / 4096 % 64 == b && n / 64 % 64 == c && n % 64 == d
  {
    var n := 262144 * a + 4096 * b + 64 * c + d;
    assert n / 64 == 4096 * a + 64 * b + c;
    assert n / 4096 == 64 * a + b;
  }

  lemma FourEncoded(s: Bytes) returns (c: int)
    requires CharLen(s) == 4
    ensures IsScalar(c) && Encoded(c) == s[..4]
  {
    var (x, y, z, w) := (s[0] as int - 0xF0, s[1] as int - 0x80, s[2] as int - 0x80, s[3] as int - 0x80);
    c := 262144 * x + 4096 * y + 64 * z + w;
    SixBits(x, y, z, w);
    assert s[..4] == [s[0], s[1], s[2], s[3]];
  }

  lemma ThreeEncoded(s: Bytes) returns (c: int)
    requires CharLen(s) == 3
    ensures IsScalar(c) && Encoded(c) == s[..3]
  {
    var (x, y, z) := (s[0] as int - 0xE0, s[1] as int - 0x80, s[2] as int - 0x80);
    c := 4096 * x + 64 * y + z;
    SixBits(0, x, y, z);
    assert s[..3] == [s[0], s[1], s[2]];
  }

  lemma CharIsEncoded(s: Bytes) returns (c: int)
    requires CharLen(s) > 0
    ensures IsScalar(c) && Encoded(c) == s[..CharLen(s)]
  {
    if CharLen(s) == 4 {
      c := FourEncoded(s);
    } else if CharLen(s) == 3 {
      c := ThreeEncoded(s);
    } else if CharLen(s) == 2 {
      c := 64 * (s[0] as int - 0xC0) + (s[1] as int - 0x80);
    } else {
      c := s[0];
    }
  }

  lemma {:induction false} EncodedIsText(cs: seq<int>)
    requires forall i | 0 <= i < |cs| :: IsScalar(cs[i])
    ensures Utf8(EncodedAll(cs))
  {
    if cs != [] {
      var (front, rest) := (Encoded(cs[0]), EncodedAll(cs[1..]));
      EncodedIsChar(cs[0], rest);
      EncodedIsText(cs[1..]);
      assert (front + rest)[|front|..] == rest;
    }
  }

  lemma {:induction false} TextIsEncoded(s: Bytes) returns (cs: seq<int>)
    requires Utf8(s)
    ensures (forall i | 0 <= i < |cs| :: IsScalar(cs[i])) && EncodedAll(cs) == s
    decreases |s|
  {
    if s == [] {
      cs := [];
    } else {
      var c := CharIsEncoded(s);
      var rest := TextIsEncoded(s[CharLen(s)..]);
      cs := [c] + rest;
      assert cs[0] == c && cs[1..] == rest;
    }
  }

  /** Bytes are text exactly if they are the encodings of some scalar values, one after the other. */
  lemma Utf8Means(s: Bytes)
    ensures Utf8(s) <==> exists cs: seq<int> :: (forall i | 0 <= i < |cs| :: IsScalar(cs[i])) && EncodedAll(cs) == s
  {
    if Utf8(s) {
      var cs := TextIsEncoded(s);
    }
    if cs: seq<int> :| (forall i | 0 <= i < |cs| :: IsScalar(cs[i])) && EncodedAll(cs) == s {
      EncodedIsText(cs);
    }
  }

  /** `is_char_boundary`: an end of the text, or a byte that does not continue a character. */
  predicate Boundary(s: Bytes, i: int) {
    i == 0 || i == |s| || (0 < i < |s| && !Continues(s[i]))
  }

  lemma CharAgain(s: Bytes, i: nat)
    requires CharLen(s) > 0 && CharLen(s) <= i <= |s|
    ensures CharLen(s[..i]) == CharLen(s)
  {
  }

  lemma InsideIsTail(s: Bytes, i: nat)
    requires 0 < i < CharLen(s)
    ensures Continues(s[i])
  {
  }

  /** No character opens with a continuing byte. */
  lemma FrontIsNoTail(s: Bytes)
    requires s != [] && Continues(s[0])
    ensures CharLen(s) == 0
  {
  }

  lemma TextFront(s: Bytes)
    requires Utf8(s) && s != []
    ensures !Continues(s[0]) && 0 < CharLen(s) && Utf8(s[CharLen(s)..])
  {
    if Continues(s[0]) {
      FrontIsNoTail(s);
    }
    hide Continues, CharLen;
  }

  lemma BoundaryBehind(s: Bytes, n: nat, i: nat)
    requires 0 < n <= i <= |s| && Utf8(s[n..])
    ensures Boundary(s, i) <==> Boundary(s[n..], i - n)
  {
    hide Utf8, Continues;
    if i < |s| {
      assert s[n..][i - n] == s[i];
      TextFront(s[n..]);
    }
  }

  lemma TextBehind(s: Bytes, i: nat)
    requires 0 < CharLen(s) <= i <= |s|
    ensures Utf8(s[..i]) <==> Utf8(s[..i][CharLen(s)..])
  {
    CharAgain(s, i);
    hide CharLen;
  }

  /** Cutting behind the first character cuts what follows it. */
  lemma CutBehindFirst(s: Bytes, i: nat)
    requires Utf8(s) && 0 < CharLen(s) <= i <= |s|
    ensures var n := CharLen(s);
            && (Boundary(s, i) <==> Boundary(s[n..], i - n))
            && (Utf8(s[..i]) <==> Utf8(s[n..][..i - n])) && s[n..][i - n..] == s[i..]
  {
    hide Utf8, CharLen, Boundary;
    var n := CharLen(s);
    TextFront(s);
    BoundaryBehind(s, n, i);
    TextBehind(s, i);
    assert s[..i][n..] == s[n..][..i - n];
    assert s[n..][i - n..] == s[i..];
  }

  /** The byte test is exact: a cut is at a boundary if and only if both sides are text. */
  lemma {:induction false} CutsBetweenCharacters(s: Bytes, i: nat)
    requires Utf8(s) && i <= |s|
    ensures Boundary(s, i) <==> Utf8(s[..i]) && Utf8(s[i..])
    decreases |s|
  {
    hide CharLen, Continues;
    var n := CharLen(s);
    if i == 0 {
      assert s[..0] == [] && s[0..] == s;
    } else if i < n {
      InsideIsTail(s, i);
      FrontIsNoTail(s[i..]);
    } else {
      CutBehindFirst(s, i);
      CutsBetweenCharacters(s[n..], i - n);
    }
  }

  /** No more than three bytes from any place there is a boundary on each side. */
  lemma {:induction false} BoundaryIsNear(s: Bytes, i: nat) returns (below: nat, above: nat)
    requires Utf8(s) && i <= |s|
    ensures below <= i <= above <= |s| && i - below <= 3 && above - i <= 3
    ensures Boundary(s, below) && Boundary(s, above)
    decreases |s|
  {
    var n := CharLen(s);
    if Boundary(s, i) {
      below, above := i, i;
    } else if i < n {
      below, above := 0, n;
      if n < |s| {
        assert Utf8(s[n..]);
        assert s[n..][0] == s[n];
      }
    } else {
      var b, a := BoundaryIsNear(s[n..], i - n);
      below, above := b + n, a + n;
      if b == 0 {
        assert Utf8(s[n..]);
        assert s[n..][0] == s[n];
      }
    }
  }

  lemma {:induction false} JoinedIsText(a: Bytes, b: Bytes)
    requires Utf8(a) && Utf8(b)
    ensures Utf8(a + b)
    decreases |a|
  {
    if a == [] {
      assert a + b == b;
    } else {
      var n := CharLen(a);
      JoinedIsText(a[n..], b);
      assert (a + b)[..|a|] == a;
      assert (a + b)[n..] == a[n..] + b;
      FrontIsKept(a, b);
    }
  }

  lemma FrontIsKept(a: Bytes, b: Bytes)
    requires CharLen(a) > 0
    ensures CharLen(a + b) == CharLen(a)
  {
    assert forall k | 0 <= k < |a| :: (a + b)[k] == a[k];
  }

  lemma {:induction false} PlainIsText(s: Bytes)
    requires forall i | 0 <= i < |s| :: s[i] < 128
    ensures Utf8(s)
    decreases |s|
  {
    if s != [] {
      PlainIsText(s[1..]);
    }
  }

  // ---------------------------------------------------------------- the excerpt

  datatype ByteRange = ByteRange(start: nat, end: nat)

  datatype Excerpt = Excerpt(text: Bytes, ranges: seq<ByteRange>, omitted: nat)

  datatype Refusal = BadBudget

  const MAX_LEN := 0xFFFF_FFFF_FFFF_FFFF

  function Marker(omitted: nat): Bytes {
    Ascii("\n[... ") + Decimal(omitted) + Ascii(" source bytes omitted ...]\n")
  }

  function Power(digits: nat): nat {
    if digits == 0 then 1 else 10 * Power(digits - 1)
  }

  lemma {:induction false} DecimalFits(n: nat, digits: nat)
    requires digits > 0 && n < Power(digits)
    ensures |Decimal(n)| <= digits
    decreases digits
  {
    assert Power(digits) == 10 * Power(digits - 1);
    if n >= 10 {
      assert n / 10 < Power(digits - 1) && Power(0) == 1;
      DecimalFits(n / 10, digits - 1);
    }
  }

  lemma MarkerFits(omitted: nat)
    requires omitted <= MAX_LEN
    ensures |Marker(omitted)| <= 53 && Utf8(Marker(omitted))
  {
    assert Power(5) == 10_0000;
    assert Power(10) == 100_0000_0000 by {
      assert Power(7) == 1000_0000;
    }
    assert Power(15) == 1_000_000_000_000_000 by {
      assert Power(12) == 1_000_000_000_000;
    }
    assert Power(20) == 100_000_000_000_000_000_000 by {
      assert Power(17) == 100_000_000_000_000_000;
    }
    DecimalFits(omitted, 20);
    PlainIsText(Marker(omitted));
  }

  /** The text is whole, or it is its head, the counted omission and its tail, cut as close as characters allow. */
  ghost predicate Shows(text: Bytes, budget: nat, e: Excerpt, head: nat, tail: nat)
    requires 128 <= budget
  {
    var kept := budget - 64;
    && head <= tail <= |text|
    && e.text == text[..head] + Marker(tail - head) + text[tail..]
    && e.ranges == [ByteRange(0, head), ByteRange(tail, |text|)]
    && e.omitted == tail - head
    && Boundary(text, head) && Boundary(text, tail)
    && kept / 2 - 3 <= head <= kept / 2
    && kept - kept / 2 - 3 <= |text| - tail <= kept - kept / 2
    && (forall i | head < i <= kept / 2 :: !Boundary(text, i))
    && (forall i | |text| - (kept - kept / 2) <= i < tail :: !Boundary(text, i))
  }

  /**
   `excerpt`: refused outside the range of budgets; otherwise within the budget, marker and
   count included, and text itself, whose retained and omitted bytes add up to the source.
   */
  method MakeExcerpt(text: Bytes, budget: int) returns (r: Result<Excerpt, Refusal>)
    requires Utf8(text) && |text| <= MAX_LEN
    ensures r.Ok? <==> 128 <= budget <= 2048
    ensures r.Ok? ==> |r.value.text| <= budget && Utf8(r.value.text)
    ensures r.Ok? && |text| <= budget ==> r.value == Excerpt(text, [ByteRange(0, |text|)], 0)
    ensures r.Ok? && |text| > budget ==> exists head, tail :: Shows(text, budget, r.value, head, tail)
  {
    hide Utf8, Marker;
    if budget < 128 || budget > 2048 {
      return Err(BadBudget);
    }
    if |text| <= budget {
      return Ok(Excerpt(text, [ByteRange(0, |text|)], 0));
    }
    var retained := budget - 64;
    var head := retained / 2;
    ghost var below, above := BoundaryIsNear(text, head);
    while !Boundary(text, head)
      invariant below <= head <= retained / 2
      invariant forall i | head < i <= retained / 2 :: !Boundary(text, i)
      decreases head
    {
      head := head - 1;
    }
    var tail := |text| - (retained - retained / 2);
    ghost var under, over := BoundaryIsNear(text, tail);
    while !Boundary(text, tail)
      invariant |text| - (retained - retained / 2) <= tail <= over
      invariant forall i | |text| - (retained - retained / 2) <= i < tail :: !Boundary(text, i)
      decreases over - tail
    {
      tail := tail + 1;
    }
    var omitted := tail - head;
    MarkerFits(omitted);
    CutsBetweenCharacters(text, head);
    CutsBetweenCharacters(text, tail);
    JoinedIsText(text[..head], Marker(omitted));
    JoinedIsText(text[..head] + Marker(omitted), text[tail..]);
    var e := Excerpt(text[..head] + Marker(omitted) + text[tail..], [ByteRange(0, head), ByteRange(tail, |text|)], omitted);
    assert Shows(text, budget, e, head, tail);
    return Ok(e);
  }

  /** The excerpt is determined: no other pair of cuts is shown for the same text and budget. */
  lemma OneExcerpt(text: Bytes, budget: nat, e: Excerpt, f: Excerpt, head: nat, tail: nat, head': nat, tail': nat)
    requires 128 <= budget && Shows(text, budget, e, head, tail) && Shows(text, budget, f, head', tail')
    ensures e == f
  {
    hide Boundary, Marker;
    assert head == head' && tail == tail';
  }

  lemma {:induction false} RangesAddUp(text: Bytes, budget: nat, e: Excerpt, head: nat, tail: nat)
    requires 128 <= budget && Shows(text, budget, e, head, tail)
    ensures (e.ranges[0].end - e.ranges[0].start) + (e.ranges[1].end - e.ranges[1].start) + e.omitted == |text|
    ensures e.text[..head] == text[..e.ranges[0].end] && e.text[|e.text| - (|text| - tail)..] == text[e.ranges[1].start..]
  {
    assert e.text[..head] == text[..head];
    assert e.text[|e.text| - (|text| - tail)..] == text[tail..];
  }
}
