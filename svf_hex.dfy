/**
 * Hex literals of SVF: parseHexChar and svfParseHex, which reads the digits
 * from right to left and packs two of them into each byte, so that the first
 * byte of the result holds the least significant digits.
 */
module SvfHex {
  /** One byte of a std::string, read as an unsigned char. */
  type Byte = b: int | 0 <= b < 256

  predicate IsHexDigit(c: char) {
    '0' <= c <= '9' || 'a' <= c <= 'f' || 'A' <= c <= 'F'
  }

  /** parseHexChar: the value of a hex digit of either case, and 255 for any other character. */
  function ParseHexChar(c: char): (v: Byte)
    ensures IsHexDigit(c) <==> v < 16
    ensures !IsHexDigit(c) ==> v == 255
  {
    if '0' <= c <= '9' then c as int - '0' as int
    else if 'a' <= c <= 'f' then c as int - 'a' as int + 10
    else if 'A' <= c <= 'F' then c as int - 'A' as int + 10
    else 255
  }

  predicate AllHex(s: seq<char>) {
    forall i :: 0 <= i < |s| ==> IsHexDigit(s[i])
  }

  /**
   * Byte k of the decoded literal: the digit 2k places from the right end
   * in the low nibble and, when there is one, the digit to its left in the
   * high nibble.
   */
  function PackedByte(s: seq<char>, k: nat): Byte
    requires AllHex(s) && 2 * k < |s|
  {
    var lo := ParseHexChar(s[|s| - 1 - 2 * k]);
    if 2 * k + 1 < |s| then lo + 16 * ParseHexChar(s[|s| - 2 - 2 * k]) else lo
  }

  /**
   * What svfParseHex returns for the len characters s: nothing at all when
   * one of them is not a hex digit, and otherwise one byte per two digits,
   * the last one holding a single digit when the count is odd.
   */
  function DecodeHex(s: seq<char>): (out: seq<Byte>)
    ensures !AllHex(s) ==> out == []
    ensures AllHex(s) ==> |out| == (|s| + 1) / 2
  {
    if AllHex(s) then seq((|s| + 1) / 2, k requires 0 <= k < (|s| + 1) / 2 => PackedByte(s, k)) else []
  }

  /**
   * svfParseHex as the loop it is: walk from the last character to the
   * first, append each digit as a new byte or, every second digit, merge it
   * into the high nibble of the byte appended last; give up with an empty
   * result at the first character that is not a digit.
   */
  method ParseHex(s: seq<char>) returns (out: seq<Byte>)
    ensures out == DecodeHex(s)
  {
    out := [];
    var incomplete := false;
    var i := |s|;
    while i > 0
      invariant 0 <= i <= |s|
      invariant AllHex(s[i..])
      invariant incomplete <==> (|s| - i) % 2 == 1
      invariant out == DecodeHex(s[i..])
    {
      var halfByte := ParseHexChar(s[i - 1]);
      if halfByte == 255 {
        OneBadDigit(s, i - 1);
        return [];
      }
      ghost var t := s[i - 1..];
      ExtendAllHex(s, i);
      assert t[1..] == s[i..];
      DecodeStep(t);
      if incomplete {
        // The byte appended last holds a digit in its low nibble only, so
        // or-ing in the high nibble is the same as adding it.
        out := out[|out| - 1 := out[|out| - 1] + 16 * halfByte];
      } else {
        out := out + [halfByte];
      }
      incomplete := !incomplete;
      i := i - 1;
    }
    assert s[0..] == s;
  }

  /** A digit in front of a run of digits makes a longer run of digits. */
  lemma ExtendAllHex(s: seq<char>, i: int)
    requires 0 < i <= |s| && AllHex(s[i..]) && IsHexDigit(s[i - 1])
    ensures AllHex(s[i - 1..])
  {
    var t, u := s[i - 1..], s[i..];
    forall j | 0 <= j < |t| ensures IsHexDigit(t[j]) {
      if j > 0 {
        assert t[j] == u[j - 1];
      }
    }
  }

  /** Adding one digit on the left of a literal either starts a new last byte or fills the last one's high nibble. */
  lemma DecodeStep(t: seq<char>)
    requires |t| > 0 && AllHex(t)
    ensures AllHex(t[1..])
    ensures var d := DecodeHex(t[1..]); var h := ParseHexChar(t[0]);
      if |t[1..]| % 2 == 0 then DecodeHex(t) == d + [h]
      else |d| > 0 && d[|d| - 1] < 16 && DecodeHex(t) == d[|d| - 1 := d[|d| - 1] + 16 * h]
  {
    TailAllHex(t);
    if |t[1..]| % 2 == 0 {
      DecodeStepEven(t);
    } else {
      DecodeStepOdd(t);
    }
  }

  lemma TailAllHex(t: seq<char>)
    requires |t| > 0 && AllHex(t)
    ensures AllHex(t[1..])
  {
    var u := t[1..];
    forall j | 0 <= j < |u| ensures IsHexDigit(u[j]) {
      assert u[j] == t[j + 1];
    }
  }

  /** A byte that lies wholly within the digits after the first is the same with or without the first digit. */
  lemma PackedByteTail(t: seq<char>, k: nat)
    requires |t| > 0 && AllHex(t) && AllHex(t[1..]) && 2 * k + 1 < |t| - 1
    ensures PackedByte(t, k) == PackedByte(t[1..], k)
  {
    var u := t[1..];
    assert t[|t| - 1 - 2 * k] == u[|u| - 1 - 2 * k];
    assert t[|t| - 2 - 2 * k] == u[|u| - 2 - 2 * k];
  }

  /** An even number of digits after the first: the first digit becomes a byte of its own. */
  lemma DecodeStepEven(t: seq<char>)
    requires |t| > 0 && AllHex(t) && AllHex(t[1..]) && |t[1..]| % 2 == 0
    ensures DecodeHex(t) == DecodeHex(t[1..]) + [ParseHexChar(t[0])]
  {
    var u := t[1..];
    var d, e := DecodeHex(u), DecodeHex(t);
    var m := |u| / 2;
    assert |u| == 2 * m && |t| == 2 * m + 1;
    assert |d| == m && |e| == m + 1;
    var r := d + [ParseHexChar(t[0])];
    forall k | 0 <= k < |e| ensures e[k] == r[k] {
      assert e[k] == PackedByte(t, k);
      if k < |d| {
        assert d[k] == PackedByte(u, k);
        PackedByteTail(t, k);
      } else {
        assert |t| - 1 - 2 * k == 0;
      }
    }
  }

  /** An odd number of digits after the first: the first digit fills the high nibble of the last byte. */
  lemma DecodeStepOdd(t: seq<char>)
    requires |t| > 0 && AllHex(t) && AllHex(t[1..]) && |t[1..]| % 2 == 1
    ensures var d := DecodeHex(t[1..]);
      |d| > 0 && d[|d| - 1] < 16 && DecodeHex(t) == d[|d| - 1 := d[|d| - 1] + 16 * ParseHexChar(t[0])]
  {
    var u := t[1..];
    var d, e := DecodeHex(u), DecodeHex(t);
    var m := |u| / 2;
    assert |u| == 2 * m + 1 && |t| == 2 * m + 2;
    assert |d| == m + 1 && |e| == m + 1;
    PackedByteHigh(t, m);
    var r := d[m := d[m] + 16 * ParseHexChar(t[0])];
    forall k | 0 <= k < m ensures e[k] == r[k] {
      assert e[k] == PackedByte(t, k) && d[k] == PackedByte(u, k);
      PackedByteTail(t, k);
    }
    assert e[m] == r[m];
  }

  /** The byte that the first of an even number of digits completes: its low nibble is the second digit, its high nibble the first. */
  lemma PackedByteHigh(t: seq<char>, m: nat)
    requires |t| == 2 * m + 2 && AllHex(t) && AllHex(t[1..])
    ensures PackedByte(t[1..], m) < 16
    ensures PackedByte(t, m) == PackedByte(t[1..], m) + 16 * ParseHexChar(t[0])
  {
    var u := t[1..];
    assert |t| - 1 - 2 * m == 1 && |t| - 2 - 2 * m == 0 && |u| - 1 - 2 * m == 0;
    assert t[1] == u[0];
  }

  /** With an odd number of digits, the last byte holds the leftmost digit, in its low nibble. */
  lemma OddLiteralLastByte(s: seq<char>)
    requires AllHex(s) && |s| % 2 == 1
    ensures var out := DecodeHex(s); out[|out| - 1] == ParseHexChar(s[0]) && out[|out| - 1] < 16
  {
    var out := DecodeHex(s);
    var k := |s| / 2;
    assert |out| == k + 1 && |s| - 1 - 2 * k == 0;
    assert out[k] == PackedByte(s, k);
  }

  /** The number a string of hex digits denotes, most significant digit first. */
  function HexNumber(s: seq<char>): nat
    requires AllHex(s)
  {
    if s == [] then 0 else HexNumber(s[..|s| - 1]) * 16 + ParseHexChar(s[|s| - 1])
  }

  /** The number a sequence of bytes denotes, least significant byte first. */
  function LittleEndian(b: seq<Byte>): nat {
    if b == [] then 0 else b[0] + 256 * LittleEndian(b[1..])
  }

  /** Byte k + 1 of a literal is byte k of the literal without its two rightmost digits. */
  lemma PackedByteShift(s: seq<char>, p: seq<char>, k: nat)
    requires AllHex(s) && |s| >= 2 && p == s[..|s| - 2] && AllHex(p) && 2 * k < |p|
    ensures PackedByte(s, k + 1) == PackedByte(p, k)
  {
    assert s[|s| - 1 - 2 * (k + 1)] == p[|p| - 1 - 2 * k];
    if 2 * k + 1 < |p| {
      assert s[|s| - 2 - 2 * (k + 1)] == p[|p| - 2 - 2 * k];
    }
  }

  /** Every slice of a literal made of digits is made of digits. */
  lemma AllHexSlice(s: seq<char>, lo: int, hi: int)
    requires AllHex(s) && 0 <= lo <= hi <= |s|
    ensures AllHex(s[lo..hi])
  {
    var p := s[lo..hi];
    forall j | 0 <= j < |p| ensures IsHexDigit(p[j]) {
      assert p[j] == s[lo + j];
    }
  }

  /** Cutting the two rightmost digits off a literal drops its first byte. */
  lemma DecodeDropLast2(s: seq<char>)
    requires AllHex(s) && |s| >= 2
    ensures AllHex(s[..|s| - 2])
    ensures DecodeHex(s) == [ParseHexChar(s[|s| - 1]) + 16 * ParseHexChar(s[|s| - 2])] + DecodeHex(s[..|s| - 2])
  {
    AllHexSlice(s, 0, |s| - 2);
    var d := DecodeHex(s);
    FirstByte(s);
    DropFirstByte(s);
    assert d == [d[0]] + d[1..];
  }

  /** The first byte of a literal of two digits or more is its two rightmost digits. */
  lemma FirstByte(s: seq<char>)
    requires AllHex(s) && |s| >= 2
    ensures var d := DecodeHex(s); |d| > 0 && d[0] == ParseHexChar(s[|s| - 1]) + 16 * ParseHexChar(s[|s| - 2])
  {
    assert DecodeHex(s)[0] == PackedByte(s, 0);
  }

  /** The bytes after the first are those of the literal without its two rightmost digits. */
  lemma DropFirstByte(s: seq<char>)
    requires AllHex(s) && |s| >= 2 && AllHex(s[..|s| - 2])
    ensures var d := DecodeHex(s); |d| > 0 && d[1..] == DecodeHex(s[..|s| - 2])
  {
    var p := s[..|s| - 2];
    var d, e := DecodeHex(s), DecodeHex(p);
    var n := (|p| + 1) / 2;
    assert |e| == n && |d| == n + 1;
    forall k | 0 <= k < n ensures d[1..][k] == e[k] {
      assert d[1..][k] == d[k + 1] == PackedByte(s, k + 1);
      assert e[k] == PackedByte(p, k);
      PackedByteShift(s, p, k);
    }
  }

  /** The decoded bytes, read least significant first, are the number the literal denotes. */
  lemma {:induction false} DecodeHexValue(s: seq<char>)
    requires AllHex(s)
    ensures LittleEndian(DecodeHex(s)) == HexNumber(s)
    decreases |s|
  {
    if |s| == 1 {
      var d := DecodeHex(s);
      assert d == [PackedByte(s, 0)];
      assert s[..0] == [];
      assert d[1..] == [];
    } else if |s| >= 2 {
      var p := s[..|s| - 2];
      DecodeDropLast2(s);
      DecodeHexValue(p);
      assert s[..|s| - 1][..|s| - 2] == p;
      var d := DecodeHex(s);
      assert d[1..] == DecodeHex(p);
    }
  }

  /** The upper-case digit for a nibble. */
  function HexDigit(v: int): (c: char)
    requires 0 <= v < 16
    ensures IsHexDigit(c) && ParseHexChar(c) == v
  {
    if v < 10 then ('0' as int + v) as char else ('A' as int + v - 10) as char
  }

  /** A literal for a byte string, as SVF writes it: most significant byte first, two digits each. */
  function EncodeHex(b: seq<Byte>): (s: seq<char>)
    ensures |s| == 2 * |b| && AllHex(s)
  {
    if b == [] then [] else EncodeHex(b[1..]) + [HexDigit(b[0] / 16), HexDigit(b[0] % 16)]
  }

  /** Decoding the literal written for a byte string gives the byte string back. */
  lemma {:induction false} DecodeEncode(b: seq<Byte>)
    ensures DecodeHex(EncodeHex(b)) == b
    decreases |b|
  {
    if b == [] {
      assert DecodeHex([]) == [];
    } else {
      var s := EncodeHex(b);
      EncodeFirstByte(b);
      DecodeDropLast2(s);
      DecodeEncode(b[1..]);
      assert b == [b[0]] + b[1..];
    }
  }

  /** The last two digits of the literal written for a byte string spell its first byte; the rest is the literal for the other bytes. */
  lemma EncodeFirstByte(b: seq<Byte>)
    requires b != []
    ensures var s := EncodeHex(b);
      && s[..|s| - 2] == EncodeHex(b[1..])
      && ParseHexChar(s[|s| - 1]) + 16 * ParseHexChar(s[|s| - 2]) == b[0]
  {
    var s := EncodeHex(b);
    var hi, lo := b[0] / 16, b[0] % 16;
    assert s == EncodeHex(b[1..]) + [HexDigit(hi), HexDigit(lo)];
    assert s[|s| - 1] == HexDigit(lo) && s[|s| - 2] == HexDigit(hi);
  }

  /** Any single character that is not a digit spoils the whole literal. */
  lemma OneBadDigit(s: seq<char>, i: int)
    requires 0 <= i < |s| && !IsHexDigit(s[i])
    ensures DecodeHex(s) == []
  {
  }
}
