/**
 * The base-128 varint: unsigned LEB128, section 7.6 of DWARF version 5.
 * Seven value bits per byte, lowest first; the high bit says that more bytes follow.
 */
module Varint {
  import opened Bytes
  import opened Division

  const TWO32: int := 0x1_0000_0000

  /** x shifted left by n bits, without a width. */
  function Shl(x: nat, n: nat): nat
    decreases n
  {
    if n == 0 then x else Shl(2 * x, n - 1)
  }

  function Pow128(n: nat): (p: nat)
    ensures p > 0
  {
    if n == 0 then 1 else 128 * Pow128(n - 1)
  }

  function EncVarint(v: nat): (bs: seq<byte>) {
    if v < 0x80 then [v] else [v % 0x80 + 0x80] + EncVarint(v / 0x80)
  }

  /**
   * The reader with its two variables as parameters. The digits fill disjoint bits of a 32-bit
   * word, so `|=` is addition there, and bits beyond the 32nd are lost; a shift past 31 is an overflow.
   */
  function DecVarintFrom(bs: seq<byte>, shift: nat, value: u32): (p: Parse<u32>)
    ensures p.Ok? ==> IsSuffix(p.rest, bs) && |p.rest| < |bs|
    decreases |bs|
  {
    if bs == [] then Eof
    else if shift > 31 then Overflow
    else
      var value' := (value + Shl(bs[0] % 0x80, shift)) % TWO32;
      if bs[0] < 0x80 then Ok(value', bs[1..]) else DecVarintFrom(bs[1..], shift + 7, value')
  }

  function DecVarint(bs: seq<byte>): (p: Parse<u32>)
    ensures p.Ok? ==> IsSuffix(p.rest, bs) && |p.rest| < |bs|
  {
    DecVarintFrom(bs, 0, 0)
  }

  lemma {:induction false} ShlAdd(x: nat, y: nat, n: nat)
    ensures Shl(x + y, n) == Shl(x, n) + Shl(y, n)
    decreases n
  {
    if n > 0 {
      ShlAdd(2 * x, 2 * y, n - 1);
    }
  }

  lemma {:induction false} ShlShl(x: nat, a: nat, b: nat)
    ensures Shl(Shl(x, a), b) == Shl(x, a + b)
    decreases a
  {
    if a > 0 {
      ShlShl(2 * x, a - 1, b);
    }
  }

  lemma ShlBySeven(x: nat)
    ensures Shl(x, 7) == 0x80 * x
  {
    assert Shl(x, 7) == Shl(2 * x, 6) == Shl(4 * x, 5) == Shl(8 * x, 4);
    assert Shl(8 * x, 4) == Shl(16 * x, 3) == Shl(32 * x, 2) == Shl(64 * x, 1) == 0x80 * x;
  }

  lemma ShlSeven(x: nat, n: nat)
    ensures Shl(x, n + 7) == Shl(0x80 * x, n)
  {
    ShlBySeven(x);
    ShlShl(x, 7, n);
  }

  lemma ShlBy32()
    ensures Shl(1, 32) == TWO32
  {
    ShlSeven(1, 25);
    ShlSeven(0x80, 18);
    ShlSeven(0x4000, 11);
    ShlSeven(0x20_0000, 4);
    assert Shl(0x1000_0000, 4) == Shl(0x2000_0000, 3) == Shl(0x4000_0000, 2) == Shl(0x8000_0000, 1) == TWO32;
  }

  lemma {:induction false} ShlGrows(x: nat, n: nat)
    requires x > 0
    ensures Shl(x, n) >= x
    decreases n
  {
    if n > 0 {
      ShlGrows(2 * x, n - 1);
    }
  }

  /** Two shifts are ordered as their widths are. */
  lemma ShlMonotone(a: nat, b: nat)
    requires a <= b
    ensures Shl(1, a) <= Shl(1, b)
  {
    ShlGrows(1, a);
    ShlGrows(Shl(1, a), b - a);
    ShlShl(1, a, b - a);
  }

  lemma NonzeroFitsBelow32(x: nat, n: nat)
    requires x > 0 && n >= 32
    ensures Shl(x, n) >= TWO32
  {
    ShlMonotone(32, n);
    ShlBy32();
    ShlAdd(1, x - 1, n);
  }

  /** Splitting off the lowest base-128 digit: v << shift is its digit there and the rest seven bits up. */
  lemma SplitDigit(v: nat, shift: nat)
    ensures Shl(v, shift) == Shl(v % 0x80, shift) + Shl(v / 0x80, shift + 7)
  {
    ShlSeven(v / 0x80, shift);
    ShlAdd(v % 0x80, 0x80 * (v / 0x80), shift);
  }

  /** One turn of the reader's loop, for a byte that carries the digit d. */
  lemma ReadDigit(b: byte, d: nat, tail: seq<byte>, shift: nat, acc: u32)
    requires shift <= 31 && d == b % 0x80 && acc + Shl(d, shift) < TWO32
    ensures DecVarintFrom([b] + tail, shift, acc)
            == if b < 0x80 then Ok(acc + Shl(d, shift), tail) else DecVarintFrom(tail, shift + 7, acc + Shl(d, shift))
  {
    var bs := [b] + tail;
    assert bs[0] == b && bs[1..] == tail;
  }

  lemma EncStep(v: nat, rest: seq<byte>)
    requires v >= 0x80
    ensures EncVarint(v) + rest == [v % 0x80 + 0x80] + (EncVarint(v / 0x80) + rest)
  {
  }

  /** From any point of the reader's loop at which the value still fits 32 bits. */
  lemma {:induction false} RoundTripFrom(v: nat, shift: nat, acc: u32, rest: seq<byte>)
    requires shift <= 31 && acc + Shl(v, shift) < TWO32
    ensures DecVarintFrom(EncVarint(v) + rest, shift, acc) == Ok(acc + Shl(v, shift), rest)
    decreases v
  {
    var q, d := v / 0x80, v % 0x80;
    if v < 0x80 {
      ReadDigit(v, v, rest, shift, acc);
    } else {
      SplitDigit(v, shift);
      if shift + 7 > 31 {
        NonzeroFitsBelow32(q, shift + 7);
      }
      ReadDigit(d + 0x80, d, EncVarint(q) + rest, shift, acc);
      EncStep(v, rest);
      RoundTripFrom(q, shift + 7, acc + Shl(d, shift), rest);
    }
  }

  /** Reading what was written gives the value back and leaves exactly what followed it. */
  lemma VarintRoundTrip(v: u32, rest: seq<byte>)
    ensures DecVarint(EncVarint(v) + rest) == Ok(v, rest)
  {
    RoundTripFrom(v, 0, 0, rest);
  }

  lemma {:induction false} DigitCount(v: nat)
    ensures v < Pow128(|EncVarint(v)|)
    ensures |EncVarint(v)| > 1 ==> Pow128(|EncVarint(v)| - 1) <= v
    ensures |EncVarint(v)| >= 1
  {
    if v >= 0x80 {
      DigitCount(v / 0x80);
    }
  }

  /** Byte i carries the i-th base-128 digit from the low end; its high bit says that more follow. */
  lemma {:induction false} VarintBytes(v: nat, i: nat)
    requires i < |EncVarint(v)|
    ensures EncVarint(v)[i] == v / Pow128(i) % 0x80 + if i + 1 < |EncVarint(v)| then 0x80 else 0
  {
    if i > 0 {
      VarintBytes(v / 0x80, i - 1);
      DivideTwice(v, 0x80, Pow128(i - 1));
    }
  }

  /** After five bytes that all say more follow, a sixth is read and then refused for its shift. */
  lemma SixthByteOverflows(bs: seq<byte>)
    requires |bs| >= 5 && forall i | 0 <= i < 5 :: bs[i] >= 0x80
    ensures DecVarint(bs) == if |bs| == 5 then Eof else Overflow
  {
    hide Shl;
    var v1 := (0 + Shl(bs[0] % 0x80, 0)) % TWO32;
    var v2 := (v1 + Shl(bs[1] % 0x80, 7)) % TWO32;
    var v3 := (v2 + Shl(bs[2] % 0x80, 14)) % TWO32;
    var v4 := (v3 + Shl(bs[3] % 0x80, 21)) % TWO32;
    var v5 := (v4 + Shl(bs[4] % 0x80, 28)) % TWO32;
    assert DecVarintFrom(bs, 0, 0) == DecVarintFrom(bs[1..], 7, v1);
    assert bs[1..][0] == bs[1] && bs[1..][1..] == bs[2..];
    assert DecVarintFrom(bs[1..], 7, v1) == DecVarintFrom(bs[2..], 14, v2);
    assert bs[2..][0] == bs[2] && bs[2..][1..] == bs[3..];
    assert DecVarintFrom(bs[2..], 14, v2) == DecVarintFrom(bs[3..], 21, v3);
    assert bs[3..][0] == bs[3] && bs[3..][1..] == bs[4..];
    assert DecVarintFrom(bs[3..], 21, v3) == DecVarintFrom(bs[4..], 28, v4);
    assert bs[4..][0] == bs[4] && bs[4..][1..] == bs[5..];
    assert DecVarintFrom(bs[4..], 28, v4) == DecVarintFrom(bs[5..], 35, v5);
  }

  lemma ZeroDigit(tail: seq<byte>, shift: nat)
    requires shift <= 31
    ensures DecVarintFrom([0x80] + tail, shift, 0) == DecVarintFrom(tail, shift + 7, 0)
  {
    ShlAdd(0, 0, shift);
    ReadDigit(0x80, 0, tail, shift, 0);
  }

  lemma LastDigit(rest: seq<byte>)
    ensures DecVarintFrom([0x10] + rest, 28, 0) == Ok(0, rest)
  {
    ShlBy32();
    ShlShl(1, 4, 28);
    assert Shl(1, 4) == Shl(2, 3) == Shl(4, 2) == Shl(8, 1) == 0x10;
    hide Shl;
    var bs := [0x10] + rest;
    assert bs[0] == 0x10 && bs[1..] == rest;
  }

  /** Bits that the fifth byte shifts past the 32nd are lost: 2^32 in five bytes is read as 0. */
  lemma HighBitsAreLost(rest: seq<byte>)
    ensures DecVarint([0x80] + ([0x80] + ([0x80] + ([0x80] + ([0x10] + rest))))) == Ok(0, rest)
  {
    hide DecVarintFrom;
    LastDigit(rest);
    ZeroDigit([0x10] + rest, 21);
    ZeroDigit([0x80] + ([0x10] + rest), 14);
    ZeroDigit([0x80] + ([0x80] + ([0x10] + rest)), 7);
    ZeroDigit([0x80] + ([0x80] + ([0x80] + ([0x10] + rest))), 0);
  }

  lemma {:induction false} DecodedIsBounded(bs: seq<byte>, shift: nat, acc: u32)
    requires DecVarintFrom(bs, shift, acc).Ok?
    requires acc < Shl(1, shift)
    ensures var p := DecVarintFrom(bs, shift, acc); p.value < Shl(1, shift + 7 * (|bs| - |p.rest|))
    decreases |bs|
  {
    var d := bs[0] % 0x80;
    var acc' := (acc + Shl(d, shift)) % TWO32;
    ShlAdd(d, 0x7F - d, shift);
    ShlAdd(1, 0x7F, shift);
    ShlSeven(1, shift);
    if bs[0] >= 0x80 {
      DecodedIsBounded(bs[1..], shift + 7, acc');
    }
  }

  lemma {:induction false} Pow128IsShl(n: nat)
    ensures Pow128(n) == Shl(1, 7 * n)
  {
    if n > 0 {
      Pow128IsShl(n - 1);
      ShlSeven(1, 7 * (n - 1));
      ShlShl(1, 7 * (n - 1), 7);
      ShlBySeven(Pow128(n - 1));
    }
  }

  /**
   * A written varint takes one to five bytes, and no byte string from which the reader
   * gets the same value is read to a shorter end.
   */
  lemma VarintIsMinimal(v: u32, bs: seq<byte>)
    ensures 1 <= |EncVarint(v)| <= 5
    ensures DecVarint(bs).Ok? && DecVarint(bs).value == v ==> |bs| - |DecVarint(bs).rest| >= |EncVarint(v)|
  {
    var n := |EncVarint(v)|;
    DigitCount(v);
    Pow128IsShl(n);
    if n > 1 {
      Pow128IsShl(n - 1);
    }
    if n > 5 {
      ShlMonotone(32, 7 * (n - 1));
      ShlBy32();
    }
    var p := DecVarint(bs);
    if p.Ok? && p.value == v && |bs| - |p.rest| < n {
      DecodedIsBounded(bs, 0, 0);
      ShlMonotone(7 * (|bs| - |p.rest|), 7 * (n - 1));
      assert false;
    }
  }

  /** A finished reading, good or bad, does not depend on the bytes after it. */
  lemma {:induction false} VarintStable(bs: seq<byte>, tail: seq<byte>, shift: nat, acc: u32)
    ensures var p := DecVarintFrom(bs, shift, acc);
            && (p.Ok? ==> DecVarintFrom(bs + tail, shift, acc) == Ok(p.value, p.rest + tail))
            && (p.Overflow? ==> DecVarintFrom(bs + tail, shift, acc).Overflow?)
    decreases |bs|
  {
    if bs != [] {
      assert (bs + tail)[1..] == bs[1..] + tail;
      if shift <= 31 && bs[0] >= 0x80 {
        VarintStable(bs[1..], tail, shift + 7, (acc + Shl(bs[0] % 0x80, shift)) % TWO32);
      }
    }
  }

  method WriteVarint(writer: Sink, v: u32)
    modifies writer
    ensures writer.bytes == old(writer.bytes) + EncVarint(v)
  {
    var value := v;
    while value >= 0x80
      invariant 0 <= value < TWO32
      invariant writer.bytes + EncVarint(value) == old(writer.bytes) + EncVarint(v)
    {
      ghost var before := writer.bytes;
      writer.WriteAll([value % 0x80 + 0x80]);
      assert writer.bytes + EncVarint(value / 0x80) == before + EncVarint(value);
      value := value / 0x80;
    }
    writer.WriteAll([value]);
  }

  /** One turn of the reading loop. */
  lemma ReadTurn(bs: seq<byte>, shift: nat, value: u32)
    ensures DecVarintFrom(bs, shift, value)
            == if bs == [] then Eof
               else if shift > 31 then Overflow
               else
                 var value' := (value + Shl(bs[0] % 0x80, shift)) % TWO32;
                 if bs[0] < 0x80 then Ok(value', bs[1..]) else DecVarintFrom(bs[1..], shift + 7, value')
  {
  }

  method ReadVarint(reader: Source) returns (r: Read<u32>)
    requires reader.Valid()
    modifies reader
    ensures reader.Landed(DecVarint(old(reader.Remaining())), r)
  {
    hide Shl, DecVarintFrom;
    var value: u32 := 0;
    var shift: nat := 0;
    while true
      invariant reader.Valid()
      invariant DecVarint(old(reader.Remaining())) == DecVarintFrom(reader.Remaining(), shift, value)
      decreases |reader.Remaining()|
    {
      ReadTurn(reader.Remaining(), shift, value);
      var b := reader.ReadU8();
      if b.UnexpectedEof? {
        return UnexpectedEof;
      }
      if shift > 31 {
        return ShiftOverflow;
      }
      value := (value + Shl(b.value % 0x80, shift)) % TWO32;
      if b.value < 0x80 {
        return Got(value);
      }
      shift := shift + 7;
    }
  }
}
