/** What the decoder makes of encoded data, and which parts of its input it looks at. */
module Base64Laws {
  import opened Base64

  // ---------------------------------------------------------------- section 4 of RFC 4648

  /** The size of the last group of n bytes. */
  function LastGroup(n: nat): (k: nat)
    requires n > 0
    ensures 1 <= k <= 3 && k <= n && (n - k) % 3 == 0
  {
    if n % 3 == 0 then 3 else n % 3
  }

  function Padding(k: nat): string
  {
    if k == 1 then "==" else if k == 2 then "=" else ""
  }

  /** The bits of one to three bytes, six at a time. */
  function Group(t: seq<Byte>): (ds: seq<Sextet>)
    requires 1 <= |t| <= 3
    ensures |ds| == |t| + 1
  {
    if |t| == 1 then [t[0] / 4, t[0] % 4 * 16]
    else if |t| == 2 then [t[0] / 4, t[0] % 4 * 16 + t[1] / 16, t[1] % 16 * 4]
    else [t[0] / 4, t[0] % 4 * 16 + t[1] / 16, t[1] % 16 * 4 + t[2] / 64, t[2] % 64]
  }

  function Text(ds: seq<Sextet>): string
  {
    if ds == [] then "" else [Digit(ds[0])] + Text(ds[1..])
  }

  /** Encoding: groups of three bytes, and a last group of one or two bytes padded with '='. */
  function Encode(b: seq<Byte>): string
  {
    if b == [] then "" else
    var n := |b| - LastGroup(|b|);
    Encode(b[..n]) + Text(Group(b[n..])) + Padding(|b| - n)
  }

  /** The zero bits that complete the last digit of a group. */
  function FillBits(k: nat): nat
  {
    if k == 1 then 4 else if k == 2 then 2 else 0
  }

  lemma {:induction false} SextetsOfText(ds: seq<Sextet>)
    ensures '=' !in Text(ds) && Sextets(Text(ds)) == ds
  {
    if ds == [] {
    } else {
      FindInTable(Digit(ds[0]), ds[0]);
      SextetsOfText(ds[1..]);
      assert Text(ds)[1..] == Text(ds[1..]);
    }
  }

  lemma SextetsOfTail(s: string, ds: seq<Sextet>, pad: string)
    requires '=' !in s && (pad == "" || pad[0] == '=')
    ensures Sextets(s + Text(ds) + pad) == Sextets(s) + ds
    ensures pad == "" ==> '=' !in s + Text(ds) + pad
  {
    SextetsOfText(ds);
    SextetsAppend(s, Text(ds));
    SextetsAppend(s + Text(ds), pad);
  }

  lemma Value64Snoc(xs: seq<Sextet>, x: Sextet)
    ensures Value64(xs + [x]) == 64 * Value64(xs) + x
  {
    assert (xs + [x])[..|xs|] == xs;
  }

  lemma ValueSnoc(bs: seq<Byte>, x: Byte)
    ensures Value(bs + [x]) == 256 * Value(bs) + x
  {
    assert (bs + [x])[..|bs|] == bs;
  }

  lemma Shl4(v: int)
    ensures Shl(v, 2) == 4 * v && Shl(v, 4) == 16 * v
  {
    assert Shl(v, 2) == 2 * Shl(v, 1) == 4 * v;
  }

  /** A group of digits continues the value by its bytes and fill bits. */
  lemma GroupValue(xs: seq<Sextet>, bs: seq<Byte>, t: seq<Byte>)
    requires Value64(xs) == Value(bs) && 1 <= |t| <= 3
    ensures Value64(xs + Group(t)) == Shl(Value(bs + t), FillBits(|t|))
  {
    var ds := Group(t);
    var x1 := xs + [ds[0]];
    var x2, b1 := x1 + [ds[1]], bs + [t[0]];
    Value64Snoc(xs, ds[0]);
    Value64Snoc(x1, ds[1]);
    ValueSnoc(bs, t[0]);
    if |t| == 1 {
      assert xs + ds == x2 && bs + t == b1;
      Shl4(Value(b1));
    } else {
      var x3, b2 := x2 + [ds[2]], b1 + [t[1]];
      Value64Snoc(x2, ds[2]);
      ValueSnoc(b1, t[1]);
      if |t| == 2 {
        assert xs + ds == x3 && bs + t == b2;
        Shl4(Value(b2));
      } else {
        assert xs + ds == x3 + [ds[3]] && bs + t == b2 + [t[2]];
        Value64Snoc(x3, ds[3]);
        ValueSnoc(b2, t[2]);
      }
    }
  }

  /** The digits of an encoding are those of its whole groups, then those of its last one. */
  lemma {:induction false} EncodeDigits(b: seq<Byte>)
    requires b != []
    ensures
      var n := |b| - LastGroup(|b|);
      Sextets(Encode(b)) == Sextets(Encode(b[..n])) + Group(b[n..])
    ensures |b| % 3 == 0 ==> '=' !in Encode(b)
  {
    var n := |b| - LastGroup(|b|);
    if n == 0 {
    } else {
      EncodeDigits(b[..n]);
    }
    SextetsOfTail(Encode(b[..n]), Group(b[n..]), Padding(|b| - n));
  }

  lemma LastGroupFill(n: nat)
    requires n > 0
    ensures FillBits(n % 3) == FillBits(LastGroup(n)) && FillBits((n - LastGroup(n)) % 3) == 0
  {
  }

  lemma GroupLength(k: nat)
    requires 1 <= k <= 3
    ensures 6 * (k + 1) == 8 * k + FillBits(k)
  {
  }

  /** One group more, after the encoding of a whole number of groups. */
  lemma EncodeMore(b: seq<Byte>, m: seq<Byte>, t: seq<Byte>, xs: seq<Sextet>)
    requires 1 <= |t| <= 3 && |m| % 3 == 0 && b == m + t && xs == Sextets(Encode(m)) + Group(t)
    requires 6 * |Sextets(Encode(m))| == 8 * |m| && Value64(Sextets(Encode(m))) == Value(m)
    requires FillBits(|b| % 3) == FillBits(|t|)
    ensures 6 * |xs| == 8 * |b| + FillBits(|b| % 3)
    ensures Value64(xs) == Shl(Value(b), FillBits(|b| % 3))
  {
    hide Value, Value64, Sextets, Encode, Group, FillBits, Shr, Shl;
    GroupValue(Sextets(Encode(m)), m, t);
    GroupLength(|t|);
  }

  /** Encoding keeps the value: the digits are the bits of b, then the fill bits. */
  lemma {:induction false} EncodeValue(b: seq<Byte>)
    ensures 6 * |Sextets(Encode(b))| == 8 * |b| + FillBits(|b| % 3)
    ensures Value64(Sextets(Encode(b))) == Shl(Value(b), FillBits(|b| % 3))
  {
    if b == [] {
    } else {
      hide Value, Value64, Sextets, Encode, Group, LastGroup, FillBits, Shr;
      var k := LastGroup(|b|);
      var m, t := b[..|b| - k], b[|b| - k..];
      LastGroupFill(|b|);
      EncodeDigits(b);
      EncodeValue(m);
      assert Shl(Value(m), 0) == Value(m);
      assert m + t == b;
      hide Shl;
      EncodeMore(b, m, t, Sextets(Encode(b)));
    }
  }

  // ---------------------------------------------------------------- decoding encoded data

  lemma {:induction false} ShrShrinks(v: nat, k: nat)
    ensures 0 <= Shr(v, k) <= v
    ensures k > 0 && v > 0 ==> Shr(v, k) < v
    decreases k
  {
    if k == 0 {
    } else {
      ShrShrinks(v / 2, k - 1);
    }
  }

  /** Bytes inverts Value on values small enough: those of byte strings at least as large. */
  lemma {:induction false} ValueOfBytes(v: nat, c: seq<Byte>)
    requires v <= Value(c)
    ensures |Bytes(v, |c|)| == |c| && Value(Bytes(v, |c|)) == v
  {
    if c == [] {
    } else {
      var k := |c| - 1;
      ValueOfBytes(v / 256, c[..k]);
      assert Bytes(v, |c|)[..k] == Bytes(v / 256, k);
    }
  }

  /** From any start offset, decoding yields |b| bytes holding b shifted right by start + 8 bits. */
  lemma DecodeEncoded(b: seq<Byte>, start: int)
    requires -8 <= start < 0
    ensures start + FillBits(|b| % 3) < 0 ==> |Decoded(Sextets(Encode(b)), start)| == |b|
    ensures start + FillBits(|b| % 3) < 0 ==> Value(Decoded(Sextets(Encode(b)), start)) == Shr(Value(b), start + 8)
  {
    hide Shr, Shl, Value, Value64, Bytes, Sextets, Encode;
    var xs := Sextets(Encode(b));
    var f, p := FillBits(|b| % 3), start + 8;
    EncodeValue(b);
    if p + f < 8 {
      Split8(BitCount(xs, start), |b|, p + f);
      ShrCompose(Shl(Value(b), f), f, p);
      ShrOfSum(0, Value(b), f);
      ShrOfZero(f);
      ShrShrinks(Value(b), p);
      ValueOfBytes(Shr(Value(b), p), b);
    }
  }

  /**
   The program as written: decoding an encoded string gives as many bytes as were encoded,
   and their big-endian value is the original one divided by four.
   */
  lemma ProgramDecodesQuarter(b: seq<Byte>)
    ensures |DecodedText(Encode(b))| == |b|
    ensures Value(DecodedText(Encode(b))) == Value(b) / 4
  {
    DecodeEncoded(b, PROGRAM_START);
    assert Shr(Value(b), 2) == Shr(Value(b) / 2, 1) == Value(b) / 2 / 2;
  }

  lemma {:induction false} ValueZero(b: seq<Byte>)
    ensures Value(b) == 0 <==> forall i :: 0 <= i < |b| ==> b[i] == 0
  {
    if b == [] {
    } else {
      ValueZero(b[..|b| - 1]);
      assert forall i :: 0 <= i < |b| - 1 ==> b[i] == b[..|b| - 1][i];
      if Value(b) == 0 {
        assert Value(b[..|b| - 1]) == 0 && b[|b| - 1] == 0;
      }
    }
  }

  /** So the program gives back what was encoded exactly when all its bytes are zero. */
  lemma ProgramRoundTrip(b: seq<Byte>)
    ensures DecodedText(Encode(b)) == b <==> forall i :: 0 <= i < |b| ==> b[i] == 0
  {
    hide Value, Bytes, DecodedText, Encode;
    ProgramDecodesQuarter(b);
    ValueZero(b);
    BytesOfValue(b);
    BytesOfValue(DecodedText(Encode(b)));
  }

  /** Started at -8, the same loop inverts the encoding, whatever the padding. */
  lemma RfcRoundTrip(b: seq<Byte>)
    ensures Decoded(Sextets(Encode(b)), RFC_START) == b
  {
    DecodeEncoded(b, RFC_START);
    BytesOfValue(b);
    BytesOfValue(Decoded(Sextets(Encode(b)), RFC_START));
  }

  lemma BytesSnoc(v: nat, x: Byte, k: nat)
    ensures Bytes(256 * v + x, k + 1) == Bytes(v, k) + [x]
  {
  }

  /** One digit more adds a byte or leaves the output as it is. */
  lemma DecodedSnoc(xs: seq<Sextet>, x: Sextet, start: int)
    requires -8 <= start < 0
    ensures
      var r := BitCount(xs, start) % 8;
      var v := Value64(xs + [x]);
      var r' := BitCount(xs + [x], start) % 8;
      if r < 2 then
        Decoded(xs + [x], start) == Decoded(xs, start) && Shr(v, r') == Shr(Value64(xs), r)
      else
        && Decoded(xs + [x], start) == Decoded(xs, start) + [ShiftedByte(v, r')]
        && Shr(v, r') == 256 * Shr(Value64(xs), r) + ShiftedByte(v, r')
        && Value(Decoded(xs + [x], start)) == 256 * Value(Decoded(xs, start)) + ShiftedByte(v, r')
  {
    hide Shr, Value64, Bytes, Value, ShiftedByte;
    var r, k := BitCount(xs, start) % 8, BitCount(xs, start) / 8;
    Value64Snoc(xs, x);
    AccumulatorStep(Value64(xs), x, r);
    if r < 2 {
      Split8(BitCount(xs + [x], start), k, r + 6);
    } else {
      Split8(BitCount(xs + [x], start), k + 1, r - 2);
      var byte := ShiftedByte(Value64(xs + [x]), r - 2);
      BytesSnoc(Shr(Value64(xs), r), byte, k);
      ValueSnoc(Decoded(xs, start), byte);
    }
  }

  lemma {:induction false} BytesLength(v: nat, k: nat)
    ensures |Bytes(v, k)| == k
    decreases k
  {
    if k == 0 {
    } else {
      BytesLength(v / 256, k - 1);
    }
  }

  lemma {:induction false} DecodedValue(xs: seq<Sextet>, start: int)
    requires -8 <= start < 0
    ensures |Decoded(xs, start)| == BitCount(xs, start) / 8
    ensures Value(Decoded(xs, start)) == Shr(Value64(xs), BitCount(xs, start) % 8)
  {
    var r, k := BitCount(xs, start) % 8, BitCount(xs, start) / 8;
    BytesLength(Shr(Value64(xs), r), k);
    if xs == [] {
      ShrOfZero(r);
    } else {
      hide Shr, Value64, Bytes, Value, Decoded;
      var n := |xs| - 1;
      DecodedValue(xs[..n], start);
      assert xs == xs[..n] + [xs[n]];
      DecodedSnoc(xs[..n], xs[n], start);
    }
  }

  lemma OneIsLost(start: int)
    requires RFC_START < start < 0
    ensures Decoded(Sextets(Encode([1])), start) != [1]
  {
    hide Sextets, Encode, Shr, Bytes, Value64, Decoded;
    var b: seq<Byte> := [1];
    assert Value(b) == 1;
    if start + 4 < 0 {
      DecodeEncoded(b, start);
      ShrShrinks(1, start + 8);
    } else {
      EncodeValue(b);
      DecodedValue(Sextets(Encode(b)), start);
      Split8(BitCount(Sextets(Encode(b)), start), 2, start + 4);
    }
  }

  /** No other start offset does: the byte 1 is lost. */
  lemma OnlyRfcStartInverts(start: int)
    requires -8 <= start < 0
    ensures start == RFC_START <==> forall b: seq<Byte> :: Decoded(Sextets(Encode(b)), start) == b
  {
    hide Decoded, Sextets, Encode;
    if start == RFC_START {
      forall b: seq<Byte> ensures Decoded(Sextets(Encode(b)), start) == b {
        RfcRoundTrip(b);
      }
    } else {
      OneIsLost(start);
    }
  }

  /** Two encoded byte strings are decoded alike exactly when they differ at most in the last two bits. */
  lemma ProgramConfuses(a: seq<Byte>, b: seq<Byte>)
    ensures DecodedText(Encode(a)) == DecodedText(Encode(b))
       <==> |a| == |b| && Value(a) / 4 == Value(b) / 4
  {
    ProgramDecodesQuarter(a);
    ProgramDecodesQuarter(b);
    BytesOfValue(DecodedText(Encode(a)));
    BytesOfValue(DecodedText(Encode(b)));
  }

  // ---------------------------------------------------------------- bit by bit

  /** Bit i of a byte string, counted from the front. */
  function ByteBit(bs: seq<Byte>, i: nat): int
    requires i < 8 * |bs|
  {
    Shr(bs[i / 8], 7 - i % 8) % 2
  }

  /** Bit j of a digit string, counted from the front. */
  function SextetBit(xs: seq<Sextet>, j: nat): int
    requires j < 6 * |xs|
  {
    Shr(xs[j / 6], 5 - j % 6) % 2
  }

  lemma Even(a: int, c: int)
    ensures (a + 2 * c) % 2 == a % 2
  {
  }

  /** Below bit m, v shifted left by m places and increased by x has the bits of x. */
  lemma LowBit(v: nat, x: nat, m: nat, k: nat)
    requires k < m
    ensures Shr(Shl(v, m) + x, k) % 2 == Shr(x, k) % 2
  {
    ShlCompose(v, m - k, k);
    ShrOfSum(x, Shl(v, m - k), k);
    assert Shl(v, m - k) == 2 * Shl(v, m - k - 1);
    hide Shr, Shl;
    Even(Shr(x, k), Shl(v, m - k - 1));
  }

  lemma {:induction false} ValueBit(bs: seq<Byte>, i: nat)
    requires i < 8 * |bs|
    ensures Shr(Value(bs), 8 * |bs| - 1 - i) % 2 == ByteBit(bs, i)
  {
    hide Shr, Shl;
    var n := |bs| - 1;
    var v := Value(bs[..n]);
    Shl8(v);
    if i >= 8 * n {
      assert i / 8 == n && i % 8 == i - 8 * n;
      LowBit(v, bs[n], 8, 7 - i % 8);
    } else {
      ShrCompose(Value(bs), 8, 8 * n - 1 - i);
      Shr8(Value(bs));
      ValueBit(bs[..n], i);
    }
  }

  lemma Shl6(v: nat)
    ensures Shl(v, 6) == 64 * v
  {
    assert Shl(v, 2) == 4 * v && Shl(v, 4) == 16 * v;
  }

  /** The last digit does not reach the bits above it. */
  lemma ShrPast(v: nat, x: Sextet, k: nat)
    ensures Shr(64 * v + x, 6 + k) == Shr(v, k)
  {
    hide Shr;
    ShrCompose(64 * v + x, 6, k);
    Shr6(v, x);
  }

  lemma {:induction false} Value64BitAt(xs: seq<Sextet>, q: nat, s: nat)
    requires q < |xs| && s < 6
    ensures Shr(Value64(xs), 6 * (|xs| - q) - 1 - s) % 2 == Shr(xs[q], 5 - s) % 2
  {
    var n := |xs| - 1;
    var v := Value64(xs[..n]);
    hide Shr, Shl;
    if q == n {
      Shl6(v);
      LowBit(v, xs[n], 6, 5 - s);
    } else {
      assert Value64(xs) == 64 * v + xs[n] && xs[..n][q] == xs[q];
      hide Value64;
      ShrPast(v, xs[n], 6 * (n - q) - 1 - s);
      Value64BitAt(xs[..n], q, s);
    }
  }

  lemma Value64Bit(xs: seq<Sextet>, j: nat)
    requires j < 6 * |xs|
    ensures Shr(Value64(xs), 6 * |xs| - 1 - j) % 2 == SextetBit(xs, j)
  {
    hide Shr, Value64;
    Value64BitAt(xs, j / 6, j % 6);
  }

  lemma {:induction false} Value64Fits(xs: seq<Sextet>, k: nat)
    ensures Shr(Value64(xs), 6 * |xs| + k) == 0
  {
    if xs == [] {
      ShrOfZero(k);
    } else {
      var n := |xs| - 1;
      Shr6(Value64(xs[..n]), xs[n]);
      ShrCompose(Value64(xs), 6, 6 * n + k);
      Value64Fits(xs[..n], k);
    }
  }

  /**
   Every bit of the output: first start + 8 zero bits, two as the program is written, then the
   bits of the digits in order. With its length this determines the output.
   */
  lemma OutputBits(xs: seq<Sextet>, start: int, i: nat)
    requires -8 <= start < 0
    requires i < 8 * (BitCount(xs, start) / 8)
    ensures |Decoded(xs, start)| == BitCount(xs, start) / 8
    ensures ByteBit(Decoded(xs, start), i) == if i < start + 8 then 0 else SextetBit(xs, i - start - 8)
  {
    var r, m, p := BitCount(xs, start) % 8, BitCount(xs, start) / 8, start + 8;
    var v := Value64(xs);
    var out := Decoded(xs, start);
    assert 8 * m + r == p + 6 * |xs|;
    DecodedValue(xs, start);
    ValueBit(out, i);
    ShrCompose(v, r, 8 * m - 1 - i);
    if i < p {
      Value64Fits(xs, p - 1 - i);
    } else {
      Value64Bit(xs, i - p);
    }
  }

  // ---------------------------------------------------------------- what the output depends on

  lemma {:induction false} NoSextets(s: string)
    ensures Sextets(s) == [] <==> forall i :: 0 <= i < |s| && Find(s[i]) >= 0 ==> '=' in s[..i]
  {
    if s == [] {
    } else if s[0] == '=' {
      assert Find('=') < 0;
      assert forall i :: 0 < i < |s| ==> s[..i][0] == '=';
    } else {
      NoSextets(s[1..]);
      if Find(s[0]) < 0 {
        assert forall i :: 0 < i < |s| ==> s[..i] == [s[0]] + s[1..][..i - 1];
        assert forall i :: 0 < i < |s| ==> ('=' in s[..i] <==> '=' in s[1..][..i - 1]);
        assert forall i :: 0 <= i < |s| - 1 ==> s[1..][i] == s[i + 1];
      } else {
        assert '=' !in s[..0];
      }
    }
  }

  /** With n digits before the first '=', the output has floor((6n + 2) / 8) bytes; none exactly if n = 0. */
  lemma OutputLength(s: string)
    ensures |DecodedText(s)| == (6 * |Sextets(s)| + 2) / 8
    ensures DecodedText(s) == [] <==> forall i :: 0 <= i < |s| && Find(s[i]) >= 0 ==> '=' in s[..i]
  {
    var xs := Sextets(s);
    BytesLength(Shr(Value64(xs), BitCount(xs, PROGRAM_START) % 8), BitCount(xs, PROGRAM_START) / 8);
    NoSextets(s);
  }

  lemma {:induction false} JunkHasNoSextets(junk: string)
    requires forall i :: 0 <= i < |junk| ==> junk[i] != '=' && Find(junk[i]) < 0
    ensures '=' !in junk && Sextets(junk) == []
  {
    if junk == [] {
    } else {
      JunkHasNoSextets(junk[1..]);
    }
  }

  /** Characters outside the alphabet, other than '=', are skipped wherever they stand. */
  lemma JunkIsSkipped(s: string, junk: string, t: string)
    requires forall i :: 0 <= i < |junk| ==> junk[i] != '=' && Find(junk[i]) < 0
    ensures DecodedText(s + junk + t) == DecodedText(s + t)
  {
    JunkHasNoSextets(junk);
    SextetsAppend(s + junk, t);
    var none: seq<Sextet> := [];
    assert Sextets(s) + none == Sextets(s);
    assert ('=' in s + junk) == ('=' in s);
    SextetsAppend(s, junk);
    SextetsAppend(s, t);
  }

  /** Nothing after the first '=' matters. */
  lemma PaddingStops(s: string, t: string)
    ensures DecodedText(s + "=" + t) == DecodedText(s)
  {
    SextetsAppend(s + "=", t);
    SextetsAppend(s, "=");
    assert (s + "=")[|s|] == '=';
    assert Sextets(s + "=") == Sextets(s);
  }

  lemma {:induction false} DecodedGrows(xs: seq<Sextet>, ys: seq<Sextet>, start: int)
    requires -8 <= start < 0
    ensures Decoded(xs, start) <= Decoded(xs + ys, start)
    decreases |ys|
  {
    if ys == [] {
      assert xs + ys == xs;
    } else {
      hide Shr, Value64, Value, Decoded, ShiftedByte;
      assert xs + [ys[0]] + ys[1..] == xs + ys;
      DecodedSnoc(xs, ys[0], start);
      DecodedGrows(xs + [ys[0]], ys[1..], start);
    }
  }

  /** More input never changes bytes already put out. */
  lemma PrefixStable(s: string, t: string)
    requires '=' !in s
    ensures DecodedText(s) <= DecodedText(s + t)
  {
    SextetsAppend(s, t);
    DecodedGrows(Sextets(s), Sextets(t), PROGRAM_START);
  }
}
