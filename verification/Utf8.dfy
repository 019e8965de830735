/**
 * Cutting UTF-8 at a character boundary (src/tracing_fmt.rs, src/util.rs),
 * against the byte sequences of sections 3 and 4 of RFC 3629.
 */
module Utf8 {

  newtype Byte = x: int | 0 <= x < 256

  predicate Continuation(b: Byte) { 0x80 <= b < 0xC0 }

  predicate Between(lo: Byte, b: Byte, hi: Byte) { lo <= b <= hi }

  /** One well-formed character: no overlong form, no surrogate, nothing above U+10FFFF. */
  predicate IsChar(c: seq<Byte>) {
    match |c|
    case 1 => c[0] <= 0x7F
    case 2 => Between(0xC2, c[0], 0xDF) && Continuation(c[1])
    case 3 =>
      && Continuation(c[2])
      && (|| (c[0] == 0xE0 && Between(0xA0, c[1], 0xBF))
          || (Between(0xE1, c[0], 0xEC) && Continuation(c[1]))
          || (c[0] == 0xED && Between(0x80, c[1], 0x9F))
          || (Between(0xEE, c[0], 0xEF) && Continuation(c[1])))
    case 4 =>
      && Continuation(c[2]) && Continuation(c[3])
      && (|| (c[0] == 0xF0 && Between(0x90, c[1], 0xBF))
          || (Between(0xF1, c[0], 0xF3) && Continuation(c[1]))
          || (c[0] == 0xF4 && Between(0x80, c[1], 0x8F)))
    case _ => false
  }

  /** The code points a character may stand for. */
  predicate IsScalar(n: nat) { n < 0xD800 || 0xE000 <= n <= 0x10FFFF }

  /** The table of section 3 of RFC 3629, six bits to a continuation byte. */
  function Encode(n: nat): seq<Byte>
    requires n < 0x20_0000
  {
    if n < 0x80 then [n as Byte]
    else if n < 0x800 then [(0xC0 + n / 64) as Byte, Tail(n)]
    else if n < 0x1_0000 then [(0xE0 + n / 64 / 64) as Byte, Tail(n / 64), Tail(n)]
    else [(0xF0 + n / 64 / 64 / 64) as Byte, Tail(n / 64 / 64), Tail(n / 64), Tail(n)]
  }

  function Tail(n: nat): Byte { (0x80 + n % 64) as Byte }

  /** Six bits more. */
  function Longer(n: nat, b: Byte): nat
    requires Continuation(b)
  {
    n * 64 + (b as nat - 0x80)
  }

  function Decode(c: seq<Byte>): nat
    requires IsChar(c)
  {
    match |c|
    case 1 => c[0] as nat
    case 2 => Longer(c[0] as nat - 0xC0, c[1])
    case 3 => Longer(Longer(c[0] as nat - 0xE0, c[1]), c[2])
    case _ => Longer(Longer(Longer(c[0] as nat - 0xF0, c[1]), c[2]), c[3])
  }

  lemma LongerTail(n: nat, b: Byte)
    ensures Continuation(Tail(n)) && Longer(n / 64, Tail(n)) == n
    ensures Continuation(b) ==> Longer(n, b) / 64 == n && Tail(Longer(n, b)) == b
  {
  }

  /** A code point is encoded as a character exactly when it is neither a surrogate nor beyond the last one. */
  lemma EncodesIffScalar(n: nat)
    requires n < 0x20_0000
    ensures IsChar(Encode(n)) <==> IsScalar(n)
    ensures IsScalar(n) ==> Decode(Encode(n)) == n
  {
    if n < 0x800 {
      LongerTail(n, 0);
    } else if n < 0x1_0000 {
      EncodesThree(n);
    } else {
      EncodesFour(n);
    }
  }

  lemma EncodesThree(n: nat)
    requires 0x800 <= n < 0x1_0000
    ensures IsChar(Encode(n)) <==> IsScalar(n)
    ensures IsScalar(n) ==> Decode(Encode(n)) == n
  {
    var m := n / 64;
    LongerTail(n, 0);
    LongerTail(m, 0);
    ThreeBytes((0xE0 + m / 64) as Byte, Tail(m), Tail(n));
  }

  lemma EncodesFour(n: nat)
    requires 0x1_0000 <= n < 0x20_0000
    ensures IsChar(Encode(n)) <==> IsScalar(n)
    ensures IsScalar(n) ==> Decode(Encode(n)) == n
  {
    var m := n / 64;
    LongerTail(n, 0);
    LongerTail(m, 0);
    LongerTail(m / 64, 0);
    FourBytes((0xF0 + m / 64 / 64) as Byte, Tail(m / 64), Tail(m), Tail(n));
  }

  /** Which three bytes are a character, by the number they stand for. */
  lemma ThreeBytes(a: Byte, b: Byte, c: Byte)
    requires 0xE0 <= a < 0xF0 && Continuation(b) && Continuation(c)
    ensures var n := Longer(Longer(a as nat - 0xE0, b), c);
            IsChar([a, b, c]) <==> 0x800 <= n < 0xD800 || 0xE000 <= n < 0x1_0000
  {
  }

  lemma FourBytes(a: Byte, b: Byte, c: Byte, d: Byte)
    requires 0xF0 <= a < 0xF8 && Continuation(b) && Continuation(c) && Continuation(d)
    ensures var n := Longer(Longer(Longer(a as nat - 0xF0, b), c), d);
            IsChar([a, b, c, d]) <==> 0x1_0000 <= n <= 0x10FFFF
  {
  }

  /** Every character is the encoding of the one code point it stands for. */
  lemma CharIsEncoding(c: seq<Byte>)
    requires IsChar(c)
    ensures IsScalar(Decode(c)) && Encode(Decode(c)) == c
  {
    match |c|
    case 1 =>
    case 2 => LongerTail(c[0] as nat - 0xC0, c[1]);
    case 3 => ThreeIsEncoding(c[0], c[1], c[2]);
    case _ => FourIsEncoding(c[0], c[1], c[2], c[3]);
  }

  lemma ThreeIsEncoding(a: Byte, b: Byte, c: Byte)
    requires IsChar([a, b, c])
    ensures IsScalar(Decode([a, b, c])) && Encode(Decode([a, b, c])) == [a, b, c]
  {
    var m := Longer(a as nat - 0xE0, b);
    ThreeBytes(a, b, c);
    LongerTail(a as nat - 0xE0, b);
    LongerTail(m, c);
    ThreeEncode(Longer(m, c), m, a, b, c);
  }

  lemma ThreeEncode(n: nat, m: nat, a: Byte, b: Byte, c: Byte)
    requires 0x800 <= n < 0x1_0000 && n / 64 == m && m / 64 == a as nat - 0xE0
    requires Tail(m) == b && Tail(n) == c
    ensures Encode(n) == [a, b, c]
  {
  }

  lemma FourIsEncoding(a: Byte, b: Byte, c: Byte, d: Byte)
    requires IsChar([a, b, c, d])
    ensures IsScalar(Decode([a, b, c, d])) && Encode(Decode([a, b, c, d])) == [a, b, c, d]
  {
    var l := Longer(a as nat - 0xF0, b);
    var m := Longer(l, c);
    FourBytes(a, b, c, d);
    LongerTail(a as nat - 0xF0, b);
    LongerTail(l, c);
    LongerTail(m, d);
    FourEncode(Longer(m, d), m, l, a, b, c, d);
  }

  lemma FourEncode(n: nat, m: nat, l: nat, a: Byte, b: Byte, c: Byte, d: Byte)
    requires 0x1_0000 <= n < 0x20_0000 && n / 64 == m && m / 64 == l && l / 64 == a as nat - 0xF0
    requires Tail(l) == b && Tail(m) == c && Tail(n) == d
    ensures Encode(n) == [a, b, c, d]
  {
  }

  type Text = seq<seq<Byte>>

  predicate IsText(t: Text) { forall i :: 0 <= i < |t| ==> IsChar(t[i]) }

  function Bytes(t: Text): seq<Byte> { if t == [] then [] else t[0] + Bytes(t[1..]) }

  ghost predicate Valid(b: seq<Byte>) { exists t :: IsText(t) && Bytes(t) == b }

  /** A boundary of a text: the end of some first characters. */
  ghost predicate Boundary(t: Text, pos: nat) { exists n :: 0 <= n <= |t| && |Bytes(t[..n])| == pos }

  lemma {:induction false} BytesAppend(t: Text, u: Text)
    ensures Bytes(t + u) == Bytes(t) + Bytes(u)
  {
    if t == [] {
      assert t + u == u;
    } else {
      assert (t + u)[1..] == t[1..] + u;
      BytesAppend(t[1..], u);
    }
  }

  /** A position is a boundary exactly when it is the end or holds no continuation byte. */
  lemma {:induction false} BoundaryByByte(t: Text, pos: nat)
    requires IsText(t) && pos <= |Bytes(t)|
    ensures Boundary(t, pos) <==> pos == |Bytes(t)| || !Continuation(Bytes(t)[pos])
    decreases |t|
  {
    if t == [] {
      assert |Bytes(t[..0])| == pos;
    } else if pos == 0 {
      assert |Bytes(t[..0])| == 0;
      assert Bytes(t)[0] == t[0][0];
    } else {
      BoundaryInTail(t, pos);
      if pos < |t[0]| {
        assert Bytes(t)[pos] == t[0][pos];
      } else {
        BoundaryByByte(t[1..], pos - |t[0]|);
        if pos < |Bytes(t)| {
          assert Bytes(t)[pos] == Bytes(t[1..])[pos - |t[0]|];
        }
      }
    }
  }

  lemma BoundaryInTail(t: Text, pos: nat)
    requires IsText(t) && t != [] && pos > 0
    ensures Boundary(t, pos) <==> pos >= |t[0]| && Boundary(t[1..], pos - |t[0]|)
  {
    if Boundary(t, pos) {
      var n :| 0 <= n <= |t| && |Bytes(t[..n])| == pos;
      assert n > 0;
      assert t[..n][1..] == t[1..][..n - 1];
    }
    if pos >= |t[0]| && Boundary(t[1..], pos - |t[0]|) {
      var n :| 0 <= n <= |t[1..]| && |Bytes(t[1..][..n])| == pos - |t[0]|;
      assert t[..n + 1][1..] == t[1..][..n];
      assert |Bytes(t[..n + 1])| == pos;
    }
  }

  /** No four continuation bytes stand in a row. */
  lemma {:induction false} BoundaryWithinThree(t: Text, pos: nat)
    requires IsText(t) && pos <= |Bytes(t)|
    ensures exists q: nat :: q <= pos <= q + 3 && Boundary(t, q)
    decreases |t|
  {
    if t == [] || pos < |t[0]| {
      assert |Bytes(t[..0])| == 0;
      assert Boundary(t, 0);
      assert 0 <= pos <= 0 + 3;
    } else {
      BoundaryWithinThree(t[1..], pos - |t[0]|);
      var q: nat :| q <= pos - |t[0]| <= q + 3 && Boundary(t[1..], q);
      BoundaryInTail(t, q + |t[0]|);
      assert Boundary(t, q + |t[0]|);
    }
  }

  lemma CutAppend(a: seq<Byte>, b: seq<Byte>)
    ensures (a + b)[..|a|] == a && (a + b)[|a|..] == b
  {
  }

  /** Cutting at a boundary leaves valid text on both sides. */
  lemma CutIsValid(t: Text, pos: nat)
    requires IsText(t) && Boundary(t, pos) && pos <= |Bytes(t)|
    ensures Valid(Bytes(t)[..pos]) && Valid(Bytes(t)[pos..])
  {
    var n :| 0 <= n <= |t| && |Bytes(t[..n])| == pos;
    PartsAreValid(t[..n], t[n..]);
    assert t[..n] + t[n..] == t;
  }

  lemma PartsAreValid(front: Text, back: Text)
    requires IsText(front) && IsText(back)
    ensures var b, pos := Bytes(front + back), |Bytes(front)|;
            pos <= |b| && Valid(b[..pos]) && Valid(b[pos..])
  {
    BytesAppend(front, back);
    CutAppend(Bytes(front), Bytes(back));
  }

  lemma ValidAppend(a: seq<Byte>, b: seq<Byte>)
    requires Valid(a) && Valid(b)
    ensures Valid(a + b)
  {
    var t :| IsText(t) && Bytes(t) == a;
    var u :| IsText(u) && Bytes(u) == b;
    BytesAppend(t, u);
    assert IsText(t + u);
  }

  /** ASCII alone is valid. */
  lemma {:induction false} AsciiIsValid(b: seq<Byte>)
    requires forall i :: 0 <= i < |b| ==> b[i] < 0x80
    ensures Valid(b)
  {
    if b == [] {
      assert Bytes([]) == b;
    } else {
      AsciiIsValid(b[1..]);
      var t :| IsText(t) && Bytes(t) == b[1..];
      assert ([[b[0]]] + t)[1..] == t;
      assert Bytes([[b[0]]] + t) == b;
    }
  }

  /** A trailing ASCII byte is a character of its own. */
  lemma TrimIsValid(b: seq<Byte>)
    requires Valid(b) && b != [] && b[|b| - 1] < 0x80
    ensures Valid(b[..|b| - 1])
  {
    var t :| IsText(t) && Bytes(t) == b;
    BoundaryByByte(t, |b| - 1);
    CutIsValid(t, |b| - 1);
  }

  // ----- The two cuts -----

  /** The greatest boundary not above `pos`. */
  ghost predicate IsFloor(t: Text, pos: nat, r: nat) {
    r <= pos && Boundary(t, r) && forall q: nat :: r < q <= pos ==> !Boundary(t, q)
  }

  /** `utf8_floor`: walk back over continuation bytes. It reads the byte at `pos` unless `pos` is 0. */
  method Utf8Floor(bytes: seq<Byte>, pos: nat, ghost t: Text) returns (i: nat)
    requires pos == 0 || pos < |bytes|
    ensures i <= pos && (i == 0 || !Continuation(bytes[i]))
    ensures forall j :: i < j <= pos ==> Continuation(bytes[j])
    ensures IsText(t) && Bytes(t) == bytes ==> IsFloor(t, pos, i) && pos - i <= 3 && Valid(bytes[..i])
  {
    i := pos;
    while i > 0 && Continuation(bytes[i])
      invariant i <= pos
      invariant forall j :: i < j <= pos ==> Continuation(bytes[j])
    {
      i := i - 1;
    }
    if IsText(t) && Bytes(t) == bytes {
      StopsAtFloor(t, pos, i);
    }
  }

  lemma StopsAtFloor(t: Text, pos: nat, i: nat)
    requires IsText(t) && i <= pos && (pos == 0 || pos < |Bytes(t)|)
    requires i == 0 || !Continuation(Bytes(t)[i])
    requires forall j :: i < j <= pos ==> Continuation(Bytes(t)[j])
    ensures IsFloor(t, pos, i) && pos - i <= 3 && Valid(Bytes(t)[..i])
  {
    forall q: nat | i < q <= pos
      ensures !Boundary(t, q)
    {
      BoundaryByByte(t, q);
    }
    if i == 0 {
      assert |Bytes(t[..0])| == 0;
    } else {
      BoundaryByByte(t, i);
    }
    assert Boundary(t, i);
    BoundaryWithinThree(t, pos);
    CutIsValid(t, i);
  }

  /** The test of `str::is_char_boundary`. */
  predicate IsCharBoundary(bytes: seq<Byte>, i: nat) {
    i == 0 || i == |bytes| || (i < |bytes| && !Continuation(bytes[i]))
  }

  /** `floor_char_boundary`: a string is valid text; a position past the end gives the end. */
  method FloorCharBoundary(s: seq<Byte>, pos: nat, ghost t: Text) returns (i: nat)
    requires IsText(t) && Bytes(t) == s
    ensures pos >= |s| ==> i == |s|
    ensures pos < |s| ==> IsFloor(t, pos, i)
  {
    if pos >= |s| {
      return |s|;
    }
    i := pos;
    while i > 0 && !IsCharBoundary(s, i)
      invariant i <= pos
      invariant forall j :: i < j <= pos ==> Continuation(s[j])
    {
      i := i - 1;
    }
    StopsAtFloor(t, pos, i);
  }

  /** There is one floor only, so the two cuts agree inside the text. */
  lemma FloorIsUnique(t: Text, pos: nat, r: nat, q: nat)
    requires IsFloor(t, pos, r) && IsFloor(t, pos, q)
    ensures r == q
  {
  }

  // ----- The event buffer -----

  function Digits(n: nat): (r: seq<Byte>)
    ensures forall i :: 0 <= i < |r| ==> 0x30 <= r[i] <= 0x39
  {
    (if n < 10 then [] else Digits(n / 10)) + [(0x30 + n % 10) as Byte]
  }

  /** "...[", the number of bytes, "B total]" and a newline. */
  function Suffix(n: nat): (r: seq<Byte>)
    ensures forall i :: 0 <= i < |r| ==> r[i] < 0x80
  {
    [0x2E, 0x2E, 0x2E, 0x5B] + Digits(n) + [0x42, 0x20, 0x74, 0x6F, 0x74, 0x61, 0x6C, 0x5D, 0x0A]
  }

  function Trimmed(b: seq<Byte>): seq<Byte> {
    if b != [] && b[|b| - 1] == 0x0A then b[..|b| - 1] else b
  }

  /** The number that decimal digits stand for. */
  function Decimal(digits: seq<Byte>): int {
    if digits == [] then 0 else Decimal(digits[..|digits| - 1]) * 10 + (digits[|digits| - 1] as int - 0x30)
  }

  /** The digits are those of the number, without a leading zero. */
  lemma {:induction false} DigitsRead(n: nat)
    ensures Decimal(Digits(n)) == n
    ensures Digits(n) != [] && (n > 0 ==> Digits(n)[0] != 0x30)
  {
    if n >= 10 {
      DigitsRead(n / 10);
      assert Digits(n)[..|Digits(n)| - 1] == Digits(n / 10);
    } else {
      assert Digits(n)[..0] == [];
    }
  }

  function Ascii(s: string): seq<Byte>
    requires forall i :: 0 <= i < |s| ==> s[i] < '\U{80}'
  {
    seq(|s|, i requires 0 <= i < |s| => s[i] as int as Byte)
  }

  lemma SuffixReads(n: nat)
    ensures Suffix(n) == Ascii("...[") + Digits(n) + Ascii("B total]\n")
  {
  }

  /** One newline at the end goes, and nothing else. */
  lemma TrimmedMeans(b: seq<Byte>, last: Byte)
    ensures Trimmed([]) == [] && Trimmed(b + [0x0A]) == b
    ensures last as int != '\n' as int ==> Trimmed(b + [last]) == b + [last]
  {
  }

  class EventBuffer {
    var buf: seq<Byte>
    const maxBytes: nat

    constructor (maxBytes: nat)
      ensures buf == [] && this.maxBytes == maxBytes
    {
      buf := [];
      this.maxBytes := maxBytes;
    }

    method Write(data: seq<Byte>) returns (n: nat)
      modifies this
      ensures buf == old(buf) + data && n == |data|
      ensures Valid(old(buf)) && Valid(data) ==> Valid(buf)
    {
      if Valid(buf) && Valid(data) {
        ValidAppend(buf, data);
      }
      buf := buf + data;
      n := |data|;
    }

    /** What reaches the error stream when the buffer is dropped. */
    method Drop(ghost t: Text) returns (output: seq<Byte>)
      ensures |buf| <= maxBytes ==> output == buf
      ensures |buf| > maxBytes && IsText(t) && Bytes(t) == buf ==>
                exists cut: nat :: IsFloor(t, maxBytes, cut) && maxBytes <= cut + 3
                                   && output == Trimmed(buf[..cut]) + Suffix(|buf|)
      ensures IsText(t) && Bytes(t) == buf ==> Valid(output)
    {
      if |buf| <= maxBytes {
        return buf;
      }
      var cut := Utf8Floor(buf, maxBytes, t);
      var kept := buf[..cut];
      output := (if kept != [] && kept[|kept| - 1] == 0x0A then kept[..|kept| - 1] else kept) + Suffix(|buf|);
      if IsText(t) && Bytes(t) == buf {
        if kept != [] && kept[|kept| - 1] == 0x0A {
          TrimIsValid(kept);
        }
        AsciiIsValid(Suffix(|buf|));
        ValidAppend(Trimmed(kept), Suffix(|buf|));
      }
    }
  }
}
