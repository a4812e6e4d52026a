/**
 The avatar decoder of `json_utils.hpp`: a bit accumulator held in a wrapping 32-bit
 integer, refined to arithmetic on unbounded integers.

 The start offset of the loop is a parameter. The program uses -6; section 4 of
 RFC 4648 asks for -8.
 */
module Base64 {

  type Byte = x: int | 0 <= x < 256
  type Sextet = x: int | 0 <= x < 64

  const ALPHABET: string :=
    "ABCDEFGHIJKLM" + "NOPQRSTUVWXYZ" + "abcdefghijklm" + "nopqrstuvwxyz" + "0123456789+/"

  /** The offset the program starts from, and the one that makes decoding the inverse of encoding. */
  const PROGRAM_START: int := -6
  const RFC_START: int := -8

  const TWO_32: int := 0x1_0000_0000

  // ---------------------------------------------------------------- the alphabet

  function Digit(i: Sextet): (c: char)
  {
    if i < 26 then ('A' as int + i) as char
    else if i < 52 then ('a' as int + i - 26) as char
    else if i < 62 then ('0' as int + i - 52) as char
    else if i == 62 then '+'
    else '/'
  }

  /** `base64_chars.find(c)`, with -1 for npos. */
  function Find(c: char): (pos: int)
    ensures -1 <= pos < 64
  {
    if 'A' <= c <= 'Z' then c as int - 'A' as int
    else if 'a' <= c <= 'z' then c as int - 'a' as int + 26
    else if '0' <= c <= '9' then c as int - '0' as int + 52
    else if c == '+' then 62
    else if c == '/' then 63
    else -1
  }

  lemma AlphabetIsTable(i: Sextet)
    ensures |ALPHABET| == 64 && ALPHABET[i] == Digit(i)
  {
  }

  /** The search finds each digit at its own place in the table, and nothing else. */
  lemma FindInTable(c: char, i: Sextet)
    ensures Find(c) == i <==> Digit(i) == c
  {
  }

  // ---------------------------------------------------------------- what is decoded

  /** The digits the decoder takes in: alphabet characters before the first '='. */
  function Sextets(s: string): seq<Sextet>
  {
    if s == [] || s[0] == '=' then []
    else if Find(s[0]) < 0 then Sextets(s[1..])
    else [Find(s[0])] + Sextets(s[1..])
  }

  function Value64(xs: seq<Sextet>): nat
  {
    if xs == [] then 0 else 64 * Value64(xs[..|xs| - 1]) + xs[|xs| - 1]
  }

  /** The big-endian value of a byte string. */
  function Value(bs: seq<Byte>): nat
  {
    if bs == [] then 0 else 256 * Value(bs[..|bs| - 1]) + bs[|bs| - 1]
  }

  /** The k low bytes of v, big-endian. */
  function Bytes(v: nat, k: nat): seq<Byte>
  {
    if k == 0 then [] else Bytes(v / 256, k - 1) + [v % 256]
  }

  /** `v >> k`: k times, half and drop the fraction (also for negative v). */
  function Shr(v: int, k: nat): (r: int)
    ensures v >= 0 ==> r >= 0
    decreases k
  {
    if k == 0 then v else Shr(v / 2, k - 1)
  }

  /** Bits held: start + 8 leading zero bits, then six per digit. */
  function BitCount(xs: seq<Sextet>, start: int): nat
    requires -8 <= start < 0
  {
    start + 8 + 6 * |xs|
  }

  /** The whole bytes of those bits; a last incomplete byte is dropped. */
  function Decoded(xs: seq<Sextet>, start: int): seq<Byte>
    requires -8 <= start < 0
  {
    Bytes(Shr(Value64(xs), BitCount(xs, start) % 8), BitCount(xs, start) / 8)
  }

  /** The function `DecodeBase64` computes. */
  function DecodedText(s: string): seq<Byte>
  {
    Decoded(Sextets(s), PROGRAM_START)
  }

  // ---------------------------------------------------------------- shifting

  /** `d << k`. */
  function Shl(d: int, k: nat): int
    decreases k
  {
    if k == 0 then d else 2 * Shl(d, k - 1)
  }

  lemma {:induction false} ShlCompose(d: int, j: nat, k: nat)
    ensures Shl(Shl(d, j), k) == Shl(d, j + k)
    decreases k
  {
    if k == 0 {
    } else {
      ShlCompose(d, j, k - 1);
    }
  }

  lemma Shl8(d: int)
    ensures Shl(d, 8) == 256 * d
  {
    assert Shl(d, 2) == 4 * d && Shl(d, 4) == 16 * d && Shl(d, 6) == 64 * d;
  }

  lemma Shl32(d: int)
    ensures Shl(d, 32) == d * TWO_32
  {
    ShlCompose(d, 8, 8);
    ShlCompose(d, 16, 8);
    ShlCompose(d, 24, 8);
    Shl8(d);
    Shl8(Shl(d, 8));
    Shl8(Shl(d, 16));
    Shl8(Shl(d, 24));
  }

  lemma {:induction false} ShrOfZero(k: nat)
    ensures Shr(0, k) == 0
  {
    if k == 0 {
    } else {
      ShrOfZero(k - 1);
    }
  }

  lemma {:induction false} ShrOfSum(w: int, d: int, k: nat)
    ensures Shr(w + Shl(d, k), k) == Shr(w, k) + d
    decreases k
  {
    if k == 0 {
    } else {
      assert (w + 2 * Shl(d, k - 1)) / 2 == w / 2 + Shl(d, k - 1);
      ShrOfSum(w / 2, d, k - 1);
    }
  }

  lemma {:induction false} ShrCompose(v: int, j: nat, k: nat)
    ensures Shr(Shr(v, j), k) == Shr(v, j + k)
    decreases j
  {
    if j == 0 {
    } else {
      ShrCompose(v / 2, j - 1, k);
    }
  }

  lemma Shr3(v: int)
    ensures Shr(v, 3) == v / 8
  {
    assert Shr(v, 3) == Shr(v / 2, 2) == Shr(v / 2 / 2, 1) == Shr(v / 2 / 2 / 2, 0);
  }

  lemma Shr6(v: int, x: Sextet)
    ensures Shr(64 * v + x, 6) == v
  {
    var u := 64 * v + x;
    var h := u / 2 / 2 / 2;
    assert Shr(u, 6) == Shr(u / 2, 5) == Shr(u / 2 / 2, 4) == Shr(h, 3);
    Shr3(h);
  }

  lemma Shr8(v: int)
    ensures Shr(v, 8) == v / 256
  {
    var h := v / 2 / 2;
    assert Shr(v, 8) == Shr(v / 2, 7) == Shr(h, 6);
    Shr6(h / 64, h % 64);
  }

  // ---------------------------------------------------------------- the 32-bit accumulator

  /** Conversion of a mathematical integer to a 32-bit two's complement one. */
  function Wrap32(x: int): (y: int)
    ensures -0x8000_0000 <= y < 0x8000_0000
    ensures (x - y) % TWO_32 == 0
  {
    var m := x % TWO_32;
    if m < 0x8000_0000 then m else m - TWO_32
  }

  /** How often wrapping took 2^32 away. */
  function Wraps(v: int): (q: int)
    ensures v == Wrap32(v) + q * TWO_32
  {
    (v - Wrap32(v)) / TWO_32
  }

  lemma ModPeriodic(x: int, k: int)
    ensures (x + k * TWO_32) % TWO_32 == x % TWO_32
  {
    var q, r := x / TWO_32, x % TWO_32;
    assert x + k * TWO_32 == (q + k) * TWO_32 + r;
  }

  lemma WrapPeriodic(x: int, k: int)
    ensures Wrap32(x + k * TWO_32) == Wrap32(x)
  {
    ModPeriodic(x, k);
  }

  /** Wrapping after every step keeps the accumulator congruent to the unbounded value. */
  lemma WrapStep(v: nat, x: Sextet)
    ensures Wrap32(Wrap32(Wrap32(v) * 64) + x) == Wrap32(v * 64 + x)
  {
    var a := Wrap32(v);
    var b := Wrap32(a * 64);
    var i, j := Wraps(v), Wraps(a * 64);
    assert v * 64 + x == b + x + (64 * i + j) * TWO_32;
    WrapPeriodic(b + x, 64 * i + j);
  }

  /** `(val >> shift) & 0xFF` on a two's complement value: an arithmetic shift, then a mask. */
  function ShiftedByte(val: int, shift: nat): Byte
  {
    Shr(val, shift) % 256
  }

  lemma ShlOfWraps(q: int, shift: nat)
    requires shift < 8
    ensures Shl(256 * Shl(q, 24 - shift), shift) == q * TWO_32
  {
    ShlCompose(q, 24 - shift, 8);
    Shl8(Shl(q, 24 - shift));
    ShlCompose(q, 32 - shift, shift);
    Shl32(q);
  }

  lemma LowByte(v: int, d: int)
    ensures (v + 256 * d) % 256 == v % 256
  {
  }

  /** A byte pushed from the wrapped accumulator is the byte of the unbounded one. */
  lemma ByteOfWrapped(v: nat, shift: nat)
    requires shift < 8
    ensures ShiftedByte(Wrap32(v), shift) == ShiftedByte(v, shift)
  {
    var w := Wrap32(v);
    var q := Wraps(v);
    var d := Shl(q, 24 - shift);
    ShlOfWraps(q, shift);
    ShrOfSum(w, 256 * d, shift);
    LowByte(Shr(w, shift), d);
  }

  /** One digit more: either only the remainder grows, or one byte leaves it. */
  lemma AccumulatorStep(v: nat, x: Sextet, r: nat)
    ensures Shr(64 * v + x, r + 6) == Shr(v, r)
    ensures r >= 2 ==>
      Shr(64 * v + x, r - 2) == 256 * Shr(v, r) + ShiftedByte(64 * v + x, r - 2)
  {
    var u := 64 * v + x;
    Shr6(v, x);
    ShrCompose(u, 6, r);
    if r >= 2 {
      ShrCompose(u, r - 2, 8);
      Shr8(Shr(u, r - 2));
    }
  }

  // ---------------------------------------------------------------- the digits read

  lemma {:induction false} SextetsAppend(s: string, t: string)
    ensures Sextets(s + t) == Sextets(s) + if '=' in s then [] else Sextets(t)
  {
    if s == [] {
      assert s + t == t;
    } else {
      assert (s + t)[1..] == s[1..] + t;
      if s[0] != '=' {
        SextetsAppend(s[1..], t);
        assert '=' in s <==> '=' in s[1..];
      }
    }
  }

  lemma SextetsNext(s: string, i: nat)
    requires i < |s| && '=' !in s[..i] && s[i] != '='
    ensures '=' !in s[..i + 1]
    ensures Sextets(s[..i + 1]) == Sextets(s[..i]) + if Find(s[i]) < 0 then [] else [Find(s[i])]
  {
    var c := [s[i]];
    assert s[..i + 1] == s[..i] + c;
    SextetsAppend(s[..i], c);
    assert c[1..] == [];
    assert Sextets(c[1..]) == [];
  }

  lemma SextetsStop(s: string, i: nat)
    requires i < |s| && '=' !in s[..i] && s[i] == '='
    ensures Sextets(s) == Sextets(s[..i])
  {
    assert s == s[..i] + s[i..];
    SextetsAppend(s[..i], s[i..]);
  }

  // ---------------------------------------------------------------- the loop

  /** A byte string is determined by its length and value. */
  lemma {:induction false} BytesOfValue(bs: seq<Byte>)
    ensures Bytes(Value(bs), |bs|) == bs
  {
    if bs == [] {
    } else {
      var n := |bs| - 1;
      assert Value(bs) / 256 == Value(bs[..n]) && Value(bs) % 256 == bs[n];
      BytesOfValue(bs[..n]);
      assert bs == bs[..n] + [bs[n]];
    }
  }

  /** What the loop keeps: xs are the digits read so far. */
  ghost predicate Tracks(xs: seq<Sextet>, start: int, val: int, valb: int, decoded: seq<Byte>)
  {
    && -8 <= start < 0 && -8 <= valb < 0
    && BitCount(xs, start) == 8 * |decoded| + valb + 8
    && val == Wrap32(Value64(xs))
    && Value(decoded) == Shr(Value64(xs), valb + 8)
  }

  lemma Split8(n: nat, q: nat, r: nat)
    requires n == 8 * q + r && r < 8
    ensures n / 8 == q && n % 8 == r
  {
  }

  lemma TracksDone(xs: seq<Sextet>, start: int, val: int, valb: int, decoded: seq<Byte>)
    requires Tracks(xs, start, val, valb, decoded)
    ensures decoded == Decoded(xs, start)
  {
    Split8(BitCount(xs, start), |decoded|, valb + 8);
    BytesOfValue(decoded);
  }

  lemma TracksNext(xs: seq<Sextet>, start: int, val: int, valb: int, decoded: seq<Byte>, x: Sextet)
    requires Tracks(xs, start, val, valb, decoded)
    ensures
      var val' := Wrap32(Wrap32(val * 64) + x);
      if valb + 6 < 0
      then Tracks(xs + [x], start, val', valb + 6, decoded)
      else Tracks(xs + [x], start, val', valb - 2, decoded + [ShiftedByte(val', valb + 6)])
  {
    hide Wrap32, ShiftedByte, Shr;
    var v := Value64(xs);
    assert (xs + [x])[..|xs|] == xs;
    WrapStep(v, x);
    AccumulatorStep(v, x, valb + 8);
    if valb + 6 >= 0 {
      ByteOfWrapped(64 * v + x, valb + 6);
      var byte := ShiftedByte(64 * v + x, valb + 6);
      assert (decoded + [byte])[..|decoded|] == decoded;
    }
  }

  /** The decoder loop, started at any offset. */
  method DecodeFrom(encoded: string, start: int) returns (decoded: seq<Byte>)
    requires -8 <= start < 0
    ensures decoded == Decoded(Sextets(encoded), start)
  {
    decoded := [];
    var val, valb := 0, start;
    ghost var xs: seq<Sextet> := [];
    ShrOfZero(start + 8);

    var i := 0;
    while i < |encoded|
      invariant 0 <= i <= |encoded|
      invariant '=' !in encoded[..i] && xs == Sextets(encoded[..i])
      invariant Tracks(xs, start, val, valb, decoded)
    {
      var c := encoded[i];
      if c == '=' {
        SextetsStop(encoded, i);
        break;
      }
      var pos := Find(c);
      SextetsNext(encoded, i);
      i := i + 1;
      if pos < 0 {
        continue;
      }

      TracksNext(xs, start, val, valb, decoded, pos);
      xs := xs + [pos];
      val := Wrap32(Wrap32(val * 64) + pos);
      valb := valb + 6;
      if valb >= 0 {
        decoded := decoded + [ShiftedByte(val, valb)];
        valb := valb - 8;
      }
    }
    assert i == |encoded| ==> encoded[..i] == encoded;
    TracksDone(xs, start, val, valb, decoded);
  }

  method DecodeBase64(encoded: string) returns (decoded: seq<Byte>)
    ensures decoded == DecodedText(encoded)
  {
    decoded := DecodeFrom(encoded, PROGRAM_START);
  }
}
