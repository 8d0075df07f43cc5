/** Byte streams: what a decoder may return, and the writer and reader objects the codecs work on. */
module Bytes {
  type byte = b: int | 0 <= b < 0x100
  type u32 = v: int | 0 <= v < 0x1_0000_0000
  type u64 = v: int | 0 <= v < 0x1_0000_0000_0000_0000

  /**
   * The outcome of decoding the front of a byte string: a value and the bytes left,
   * the input ended too early, or a varint asked for a shift of more than 31 bits.
   */
  datatype Parse<+T> = Ok(value: T, rest: seq<byte>) | Eof | Overflow

  /** The same outcome as a method on a stateful reader reports it. */
  datatype Read<+T> = Got(value: T) | UnexpectedEof | ShiftOverflow

  ghost predicate IsSuffix(rest: seq<byte>, bs: seq<byte>) {
    |rest| <= |bs| && rest == bs[|bs| - |rest|..]
  }

  lemma SuffixTransitive(a: seq<byte>, b: seq<byte>, c: seq<byte>)
    requires IsSuffix(a, b) && IsSuffix(b, c)
    ensures IsSuffix(a, c)
  {
    assert a == c[|c| - |b|..][|b| - |a|..];
  }

  /** A growing output buffer (the `Write` side). */
  class Sink {
    var bytes: seq<byte>

    constructor ()
      ensures bytes == []
    {
      bytes := [];
    }

    method WriteAll(bs: seq<byte>)
      modifies this
      ensures bytes == old(bytes) + bs
    {
      bytes := bytes + bs;
    }
  }

  /** A read position in a fixed byte string (the `Read` side). */
  class Source {
    const data: seq<byte>
    var pos: nat

    ghost predicate Valid()
      reads this
    {
      pos <= |data|
    }

    ghost function Remaining(): seq<byte>
      reads this
      requires Valid()
    {
      data[pos..]
    }

    /** The reader reports outcome r and stands where the decoder's result p says it must. */
    ghost predicate Landed<T>(p: Parse<T>, r: Read<T>)
      reads this
    {
      && Valid()
      && match p
         case Ok(v, rest) => r == Got(v) && Remaining() == rest
         case Eof => r == UnexpectedEof && Remaining() == []
         case Overflow => r == ShiftOverflow
    }

    constructor (data: seq<byte>)
      ensures Valid() && this.data == data && Remaining() == data
    {
      this.data := data;
      pos := 0;
    }

    method ReadU8() returns (r: Read<byte>)
      requires Valid()
      modifies this
      ensures Landed(if old(Remaining()) == [] then Eof else Ok(old(Remaining())[0], old(Remaining())[1..]), r)
    {
      if pos == |data| {
        return UnexpectedEof;
      }
      r := Got(data[pos]);
      pos := pos + 1;
    }

    /** A short read consumes everything that is left. */
    method ReadExact(n: nat) returns (r: Read<seq<byte>>)
      requires Valid()
      modifies this
      ensures Landed(if |old(Remaining())| < n then Eof else Ok(old(Remaining())[..n], old(Remaining())[n..]), r)
    {
      if |data| - pos < n {
        pos := |data|;
        return UnexpectedEof;
      }
      assert data[pos..][..n] == data[pos..pos + n] && data[pos..][n..] == data[pos + n..];
      r := Got(data[pos..pos + n]);
      pos := pos + n;
    }
  }
}
