/** Files of lines: each line ends with a newline, and the file may go on with an unfinished one. */
module TextLines {
  import opened Basics

  /** The file of these lines, each ended by a newline. */
  function Joined(lines: seq<Bytes>): Bytes {
    if lines == [] then [] else lines[0] + [NEWLINE] + Joined(lines[1..])
  }

  predicate Unbroken(lines: seq<Bytes>) {
    forall i | 0 <= i < |lines| :: NEWLINE !in lines[i]
  }

  /** Every file is some unbroken lines and a last stretch. */
  lemma {:induction false} Split(file: Bytes) returns (lines: seq<Bytes>, tail: Bytes)
    ensures Unbroken(lines) && NEWLINE !in tail && file == Joined(lines) + tail
    decreases |file|
  {
    match LineEnd(file)
    case None => lines, tail := [], file;
    case Some(end) =>
      var more;
      more, tail := Split(file[end..]);
      lines := [file[..end - 1]] + more;
      assert lines[1..] == more;
      assert file == file[..end - 1] + [NEWLINE] + file[end..];
  }

  lemma {:induction false} NoLineEnd(s: Bytes)
    requires NEWLINE !in s
    ensures LineEnd(s) == None
    decreases |s|
  {
    if s != [] {
      NoLineEnd(s[1..]);
    }
  }

  lemma BlankLine(line: Bytes)
    ensures Blank(line + [NEWLINE]) <==> Blank(line)
  {
    if Blank(line + [NEWLINE]) {
      forall i | 0 <= i < |line| ensures IsAsciiWhitespace(line[i]) {
        assert (line + [NEWLINE])[i] == line[i];
      }
    }
  }

  lemma {:induction false} JoinedAt(lines: seq<Bytes>, k: nat)
    requires k < |lines|
    ensures Joined(lines) == Joined(lines[..k]) + lines[k] + [NEWLINE] + Joined(lines[k + 1..])
    decreases k
  {
    if k > 0 {
      JoinedAt(lines[1..], k - 1);
      assert lines[..k][1..] == lines[1..][..k - 1] && lines[1..][k..] == lines[k + 1..];
    }
  }

  lemma JoinedParts(lines: seq<Bytes>)
    ensures if lines == [] then Joined(lines) == []
            else Joined(lines) == lines[0] + [NEWLINE] + Joined(lines[1..]) && |Joined(lines)| == |lines[0]| + 1 + |Joined(lines[1..])|
  {
  }

  lemma ThreeParts(a: Bytes, b: Bytes, rest: Bytes)
    ensures a + [NEWLINE] + b + rest == a + [NEWLINE] + (b + rest)
  {
  }

  lemma FourParts(a: Bytes, b: Bytes, rest: Bytes)
    ensures a + b + [NEWLINE] + rest == a + (b + [NEWLINE] + rest)
  {
  }
}
