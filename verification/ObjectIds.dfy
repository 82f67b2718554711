/** Object identities: the framed payload that is hashed, and the hex text of an id. */
module ObjectIds {
  import opened Basics

  type ObjectId = s: Bytes | |s| == 32 witness seq(32, _ => 0 as byte)

  /** What is fed to the hash for a payload of one kind. */
  function Frame(kind: Bytes, payload: Bytes): Bytes {
    kind + [32] + Decimal(|payload|) + [0] + payload
  }

  method FromPayload(sha: Bytes -> ObjectId, kind: Bytes, payload: Bytes) returns (id: ObjectId)
    ensures id == sha(Frame(kind, payload))
  {
    var fed := kind;
    fed := fed + [32];
    fed := fed + Decimal(|payload|);
    fed := fed + [0];
    fed := fed + payload;
    id := sha(fed);
  }

  /** Two texts cut at the first occurrence of one separator are cut alike. */
  lemma {:induction false} CutUnique(a: Bytes, x: Bytes, b: Bytes, y: Bytes, separator: byte)
    requires separator !in a && separator !in b
    requires a + [separator] + x == b + [separator] + y
    ensures a == b && x == y
  {
    var whole := a + [separator] + x;
    assert whole[|a|] == separator && forall i | 0 <= i < |a| :: whole[i] == a[i] != separator;
    assert whole[|b|] == separator && forall i | 0 <= i < |b| :: whole[i] == b[i] != separator;
    assert a == whole[..|a|] == b;
    assert x == whole[|a| + 1..] == y;
  }

  /** No two typed payloads share a frame, whatever bytes the payloads hold. */
  lemma FrameInjective(kind: Bytes, payload: Bytes, kind': Bytes, payload': Bytes)
    requires 32 !in kind && 32 !in kind'
    requires Frame(kind, payload) == Frame(kind', payload')
    ensures kind == kind' && payload == payload'
  {
    var rest, rest' := Decimal(|payload|) + [0] + payload, Decimal(|payload'|) + [0] + payload';
    assert Frame(kind, payload) == kind + [32] + rest;
    assert Frame(kind', payload') == kind' + [32] + rest';
    CutUnique(kind, rest, kind', rest', 32);
    CutUnique(Decimal(|payload|), payload, Decimal(|payload'|), payload', 0);
  }

  /** A two-byte blob, framed: its kind, a space, the digit 2, a zero byte, and the payload. */
  lemma FrameOfTwo(a: byte, b: byte)
    ensures Frame(Ascii("blob"), [a, b]) == [98, 108, 111, 98, 32, 50, 0, a, b]
  {
    assert Ascii("blob") == [98, 108, 111, 98];
  }

  // ---------------------------------------------------------------- hex

  const DIGITS := "0123456789abcdef"

  function HexDigit(n: int): (d: byte)
    requires 0 <= n < 16
    ensures IsLowerHex(d) && DigitValue(d) == Some(n)
  {
    (if n < 10 then 48 + n else 87 + n) as byte
  }

  predicate IsLowerHex(c: byte) {
    48 <= c <= 57 || 97 <= c <= 102
  }

  function DigitValue(c: byte): (v: Option<int>)
    ensures v.Some? ==> 0 <= v.value < 16
  {
    if 48 <= c <= 57 then Some(c - 48)
    else if 97 <= c <= 102 then Some(c - 87)
    else if 65 <= c <= 70 then Some(c - 55)
    else None
  }

  /** Two characters as one byte, the way `u8::from_str_radix` reads them: a leading `+` is a sign. */
  function PairValue(high: byte, low: byte): (v: Option<byte>) {
    match (DigitValue(high), DigitValue(low))
    case (Some(h), Some(l)) => Some((16 * h + l) as byte)
    case (None, Some(l)) => if high == 43 then Some(l as byte) else None
    case (_, None) => None
  }

  function Hex(bytes: Bytes): Bytes {
    seq(2 * |bytes|, i requires 0 <= i < 2 * |bytes| =>
      HexDigit(if i % 2 == 0 then bytes[i / 2] / 16 else bytes[i / 2] % 16))
  }

  predicate Parses(s: Bytes) {
    |s| == 64 && forall i | 0 <= i < 32 :: PairValue(s[2 * i], s[2 * i + 1]).Some?
  }

  function FromHex(s: Bytes): Option<ObjectId> {
    if Parses(s) then Some(seq(32, i requires 0 <= i < 32 => PairValue(s[2 * i], s[2 * i + 1]).value))
    else None
  }

  method WriteHex(bytes: Bytes) returns (s: Bytes)
    ensures s == Hex(bytes)
  {
    s := [];
    for k := 0 to |bytes|
      invariant |s| == 2 * k && s == Hex(bytes)[..2 * k]
    {
      s := s + [HexDigit(bytes[k] / 16)];
      s := s + [HexDigit(bytes[k] % 16)];
      assert s == Hex(bytes)[..2 * k] + [Hex(bytes)[2 * k]] + [Hex(bytes)[2 * k + 1]];
    }
  }

  method ReadHex(s: Bytes) returns (id: Option<ObjectId>)
    ensures id == FromHex(s)
  {
    if |s| != 64 {
      return None;
    }
    var bytes: Bytes := [];
    for i := 0 to 32
      invariant |bytes| == i
      invariant forall k | 0 <= k < i :: PairValue(s[2 * k], s[2 * k + 1]) == Some(bytes[k])
    {
      var pair := PairValue(s[2 * i], s[2 * i + 1]);
      if pair.None? {
        return None;
      }
      bytes := bytes + [pair.value];
    }
    assert FromHex(s).value == bytes;
    return Some(bytes);
  }

  lemma PairOf(b: byte)
    ensures PairValue(HexDigit(b / 16), HexDigit(b % 16)) == Some(b)
  {
  }

  lemma PairSpelling(high: byte, low: byte)
    requires PairValue(high, low).Some? && IsLowerHex(high) && IsLowerHex(low)
    ensures var b := PairValue(high, low).value; HexDigit(b / 16) == high && HexDigit(b % 16) == low
  {
  }

  lemma HexAt(bytes: Bytes, k: nat)
    requires k < |bytes|
    ensures Hex(bytes)[2 * k] == HexDigit(bytes[k] / 16) && Hex(bytes)[2 * k + 1] == HexDigit(bytes[k] % 16)
  {
  }

  /** A byte's text is its upper and then its lower four bits, each as the digit of that value. */
  lemma HexSpells(bytes: Bytes, k: nat)
    requires k < |bytes|
    ensures Hex(bytes)[2 * k] as int == DIGITS[bytes[k] / 16] as int
    ensures Hex(bytes)[2 * k + 1] as int == DIGITS[bytes[k] % 16] as int
    ensures |Hex(bytes)| == 2 * |bytes|
  {
    HexAt(bytes, k);
  }

  /** A text is accepted exactly if it has 64 characters: in low places digits, of either case, and in high places digits or a plus. */
  lemma AcceptedIff(s: Bytes)
    ensures FromHex(s).Some? <==> |s| == 64 && forall k | 0 <= k < 32 :: IsDigit(s[2 * k + 1]) && (IsDigit(s[2 * k]) || s[2 * k] == 43)
  {
    hide DigitValue;
    forall c: byte ensures IsDigit(c) <==> DigitValue(c).Some? {
      DigitIff(c);
    }
  }

  predicate IsDigit(c: byte) {
    exists i | 0 <= i < 16 :: c as int == DIGITS[i] as int || (i >= 10 && c as int == DIGITS[i] as int - 32)
  }

  lemma DigitIff(c: byte)
    ensures IsDigit(c) <==> DigitValue(c).Some?
    ensures DigitValue(c).Some? ==>
              var i := DigitValue(c).value; c as int == DIGITS[i] as int || (i >= 10 && c as int == DIGITS[i] as int - 32)
  {
  }

  lemma FromHexOf(s: Bytes, id: ObjectId)
    requires |s| == 64 && forall i | 0 <= i < 32 :: PairValue(s[2 * i], s[2 * i + 1]) == Some(id[i])
    ensures FromHex(s) == Some(id)
  {
    hide PairValue;
    assert FromHex(s).value == id;
  }

  /** The text of an id names that id. */
  lemma HexRoundTrip(id: ObjectId)
    ensures FromHex(Hex(id)) == Some(id)
  {
    var s := Hex(id);
    forall i | 0 <= i < 32
      ensures PairValue(s[2 * i], s[2 * i + 1]) == Some(id[i])
    {
      HexAt(id, i);
      PairOf(id[i]);
    }
    FromHexOf(s, id);
  }

  /**
   An accepted text is the text of the id it names exactly when it has only lower-case digits.
   Upper-case digits and a `+` in a high place are accepted too, so ids have several spellings.
   */
  lemma HexCanonical(s: Bytes)
    requires FromHex(s).Some?
    ensures Hex(FromHex(s).value) == s <==> forall c | c in s :: IsLowerHex(c)
  {
    var id := FromHex(s).value;
    var t := Hex(id);
    forall k | 0 <= k < 32
      ensures IsLowerHex(t[2 * k]) && IsLowerHex(t[2 * k + 1])
      ensures IsLowerHex(s[2 * k]) && IsLowerHex(s[2 * k + 1]) ==> t[2 * k] == s[2 * k] && t[2 * k + 1] == s[2 * k + 1]
    {
      HexAt(id, k);
      assert PairValue(s[2 * k], s[2 * k + 1]) == Some(id[k]);
      if IsLowerHex(s[2 * k]) && IsLowerHex(s[2 * k + 1]) {
        PairSpelling(s[2 * k], s[2 * k + 1]);
      }
    }
    forall i | 0 <= i < 64
      ensures IsLowerHex(t[i]) && (IsLowerHex(s[2 * (i / 2)]) && IsLowerHex(s[2 * (i / 2) + 1]) ==> t[i] == s[i])
    {
      assert i == 2 * (i / 2) || i == 2 * (i / 2) + 1;
    }
  }
}
