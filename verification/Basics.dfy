/** Shared vocabulary: bytes, optional values, results and decimal numerals. */
module Basics {

  datatype Option<+T> = None | Some(value: T)

  /** One append: written, failed without a line, or failed although the line stayed. */
  datatype Appended = Landed | Lost | Kept

  function Noted<T>(log: seq<T>, line: T, w: Appended): seq<T> {
    if w == Lost then log else log + [line]
  }

  datatype Result<+T, +E> = Ok(value: T) | Err(error: E)

  type byte = x: int | 0 <= x < 256

  type Bytes = seq<byte>

  const NEWLINE: byte := 10

  predicate IsAsciiWhitespace(b: byte) {
    b == 9 || b == 10 || b == 12 || b == 13 || b == 32
  }

  predicate Blank(s: Bytes) {
    forall i | 0 <= i < |s| :: IsAsciiWhitespace(s[i])
  }

  /** The index just after the first newline of `s`, if it has one. */
  function LineEnd(s: Bytes): (end: Option<nat>)
    ensures end.None? ==> NEWLINE !in s
    ensures end.Some? ==> 0 < end.value <= |s| && s[end.value - 1] == NEWLINE && NEWLINE !in s[..end.value - 1]
  {
    if s == [] then None
    else if s[0] == NEWLINE then Some(1)
    else
      match LineEnd(s[1..])
      case None => None
      case Some(n) => assert s[..n] == [s[0]] + s[1..][..n - 1]; Some(n + 1)
  }

  lemma {:induction false} LineEndAt(a: Bytes, b: Bytes)
    requires NEWLINE !in a
    ensures LineEnd(a + [NEWLINE] + b) == Some(|a| + 1)
  {
    if a == [] {
      assert a + [NEWLINE] + b == [NEWLINE] + b;
    } else {
      LineEndAt(a[1..], b);
      assert (a + [NEWLINE] + b)[1..] == a[1..] + [NEWLINE] + b;
    }
  }

  function Prefix(s: Bytes, n: nat): (p: Bytes)
    ensures p <= s
  {
    if n <= |s| then s[..n] else s
  }

  function Ascii(s: string): Bytes {
    seq(|s|, i requires 0 <= i < |s| => (s[i] as int % 256) as byte)
  }

  /** The decimal numeral of `n`, as ASCII digits without leading zeros. */
  function Decimal(n: nat): (d: Bytes)
    ensures |d| > 0
    ensures forall i | 0 <= i < |d| :: 48 <= d[i] <= 57
  {
    if n < 10 then [(48 + n) as byte] else Decimal(n / 10) + [(48 + n % 10) as byte]
  }

  /** What a decimal numeral says, its most significant digit first. */
  function Numeral(d: Bytes): int {
    if d == [] then 0 else 10 * Numeral(d[..|d| - 1]) + (d[|d| - 1] as int - 48)
  }

  /** A number's numeral says that number, and only the numeral of zero begins with a zero. */
  lemma {:induction false} DecimalReads(n: nat)
    ensures Numeral(Decimal(n)) == n
    ensures if n == 0 then Decimal(n) == [48] else Decimal(n)[0] != 48
  {
    if n >= 10 {
      DecimalReads(n / 10);
      assert Decimal(n)[..|Decimal(n)| - 1] == Decimal(n / 10);
    }
  }

  lemma {:induction false} LeastExists(ids: set<nat>, id: nat)
    requires id in ids
    ensures exists least :: least in ids && forall x | x in ids :: least <= x
    decreases id
  {
    if x :| x in ids && x < id {
      LeastExists(ids, x);
    }
  }

  /** The order of texts, by their first difference. */
  predicate TextBelow(a: string, b: string) {
    b != [] && (a == [] || a[0] < b[0] || (a[0] == b[0] && TextBelow(a[1..], b[1..])))
  }

  lemma {:induction false} TextTotal(a: string, b: string)
    ensures a == b || TextBelow(a, b) || TextBelow(b, a)
    decreases |a|
  {
    if a != [] && b != [] && a[0] == b[0] {
      TextTotal(a[1..], b[1..]);
      assert a == [a[0]] + a[1..] && b == [b[0]] + b[1..];
    }
  }

  lemma {:induction false} TextTrans(a: string, b: string, c: string)
    requires TextBelow(a, b) && TextBelow(b, c)
    ensures TextBelow(a, c)
    decreases |a|
  {
    if a != [] && a[0] == b[0] == c[0] {
      TextTrans(a[1..], b[1..], c[1..]);
    }
  }

  predicate LeastText(ids: set<string>, least: string) {
    least in ids && forall x | x in ids :: x == least || TextBelow(least, x)
  }

  lemma {:induction false} LeastTextExists(ids: set<string>)
    requires ids != {}
    ensures exists least :: LeastText(ids, least)
    decreases |ids|
  {
    hide TextBelow;
    var id :| id in ids;
    if ids == {id} {
      assert LeastText(ids, id);
    } else {
      var rest := ids - {id};
      assert rest != {};
      LeastTextExists(rest);
      var m :| LeastText(rest, m);
      TextTotal(m, id);
      if TextBelow(m, id) {
        assert LeastText(ids, m);
      } else {
        forall x | x in ids ensures x == id || TextBelow(id, x) {
          if x in rest && x != m {
            TextTrans(id, m, x);
          }
        }
        assert LeastText(ids, id);
      }
    }
  }

  /** Whether `part` occurs in `whole` as one contiguous stretch. */
  predicate Occurs(part: Bytes, whole: Bytes) {
    exists i | 0 <= i <= |whole| :: part <= whole[i..]
  }

  lemma OccursInExtension(part: Bytes, whole: Bytes, more: Bytes)
    requires Occurs(part, whole)
    ensures Occurs(part, whole + more)
  {
    var i :| 0 <= i <= |whole| && part <= whole[i..];
    assert (whole + more)[i..] == whole[i..] + more;
  }

  lemma OccursAfter(part: Bytes, before: Bytes, whole: Bytes)
    requires Occurs(part, whole)
    ensures Occurs(part, before + whole)
  {
    var i :| 0 <= i <= |whole| && part <= whole[i..];
    assert (before + whole)[|before| + i..] == whole[i..];
  }

  lemma OccursBetween(before: Bytes, part: Bytes, after: Bytes)
    ensures Occurs(part, before + part + after)
  {
    assert (before + part + after)[|before|..] == part + after;
  }
}
