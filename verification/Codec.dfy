/**
 * What the nested formats of this repository have in common. A codec is an encoder, a decoder
 * of the front of a byte string, and the set of values whose lengths fit the 32-bit counts;
 * the lemmas lift its two laws to counted lists and derive the rest from them.
 */
module Codec {
  import opened Bytes
  import opened Varint

  /** Decoding what was written before any other bytes gives the value and those bytes, exactly when the value fits. */
  ghost predicate ReadsBackAt<T>(enc: T -> seq<byte>, dec: seq<byte> -> Parse<T>, fits: T -> bool, x: T, rest: seq<byte>) {
    var p := dec(enc(x) + rest);
    if fits(x) then p == Ok(x, rest) else !(p.Ok? && p.value == x)
  }

  /** A finished decoding does not depend on later bytes. */
  ghost predicate StableAt<T>(dec: seq<byte> -> Parse<T>, bs: seq<byte>, tail: seq<byte>) {
    match dec(bs)
    case Ok(x, rest) => IsSuffix(rest, bs) && dec(bs + tail) == Ok(x, rest + tail)
    case Overflow => dec(bs + tail).Overflow?
    case Eof => true
  }

  ghost predicate ReadsBack<T(!new)>(enc: T -> seq<byte>, dec: seq<byte> -> Parse<T>, fits: T -> bool) {
    forall x, rest :: ReadsBackAt(enc, dec, fits, x, rest)
  }

  ghost predicate Stable<T>(dec: seq<byte> -> Parse<T>) {
    forall bs, tail :: StableAt(dec, bs, tail)
  }

  ghost predicate IsCodec<T(!new)>(enc: T -> seq<byte>, dec: seq<byte> -> Parse<T>, fits: T -> bool) {
    ReadsBack(enc, dec, fits) && Stable(dec)
  }

  // ---------- Consequences for a single value ----------

  /** No strict prefix of an encoding decodes: it always runs into the end of the input. */
  lemma StrictPrefixIsTorn<T(!new)>(enc: T -> seq<byte>, dec: seq<byte> -> Parse<T>, fits: T -> bool, x: T, cut: nat)
    requires IsCodec(enc, dec, fits) && fits(x) && cut < |enc(x)|
    ensures dec(enc(x)[..cut]) == Eof
  {
    var torn, tail := enc(x)[..cut], enc(x)[cut..];
    assert enc(x) + [] == torn + tail;
    assert ReadsBackAt(enc, dec, fits, x, []);
    assert StableAt(dec, torn, tail);
  }

  // ---------- Sequences of values ----------

  function EncAll<T>(enc: T -> seq<byte>, xs: seq<T>): seq<byte> {
    if xs == [] then [] else enc(xs[0]) + EncAll(enc, xs[1..])
  }

  function DecN<T>(dec: seq<byte> -> Parse<T>, n: nat, bs: seq<byte>): (p: Parse<seq<T>>)
    ensures p.Ok? ==> |p.value| == n
  {
    if n == 0 then Ok([], bs)
    else
      match dec(bs)
      case Eof => Eof
      case Overflow => Overflow
      case Ok(x, rest) => Prepend([x], DecN(dec, n - 1, rest))
  }

  function Prepend<T>(xs: seq<T>, p: Parse<seq<T>>): Parse<seq<T>> {
    match p
    case Ok(ys, rest) => Ok(xs + ys, rest)
    case Eof => Eof
    case Overflow => Overflow
  }

  /** Before the first element is read, and after the last. */
  lemma PrependEnds<T>(p: Parse<seq<T>>, xs: seq<T>, rest: seq<byte>)
    ensures Prepend([], p) == p
    ensures Prepend(xs, Ok([], rest)) == Ok(xs, rest)
  {
    if p.Ok? {
      assert [] + p.value == p.value;
    }
    assert xs + [] == xs;
  }

  /** One more element read while xs have been: how a reading loop follows DecN. */
  lemma ReadOneMore<T>(dec: seq<byte> -> Parse<T>, n: nat, bs: seq<byte>, xs: seq<T>)
    requires n > 0
    ensures Prepend(xs, DecN(dec, n, bs))
            == match dec(bs)
               case Eof => Eof
               case Overflow => Overflow
               case Ok(x, rest) => Prepend(xs + [x], DecN(dec, n - 1, rest))
  {
    if dec(bs).Ok? {
      var later := DecN(dec, n - 1, dec(bs).rest);
      if later.Ok? {
        assert xs + ([dec(bs).value] + later.value) == xs + [dec(bs).value] + later.value;
      }
    }
  }

  /** A list is written as its length, cut to 32 bits, and then its elements. */
  function EncList<T>(enc: T -> seq<byte>, xs: seq<T>): seq<byte> {
    EncVarint(|xs| % TWO32) + EncAll(enc, xs)
  }

  function DecList<T>(dec: seq<byte> -> Parse<T>, bs: seq<byte>): Parse<seq<T>> {
    match DecVarint(bs)
    case Eof => Eof
    case Overflow => Overflow
    case Ok(n, rest) => DecN(dec, n, rest)
  }

  ghost predicate ListFits<T>(fits: T -> bool, xs: seq<T>) {
    |xs| < TWO32 && forall x | x in xs :: fits(x)
  }

  /** One more element written: how a writing loop follows EncAll. */
  lemma WriteOneMore<T>(enc: T -> seq<byte>, xs: seq<T>, i: nat, before: seq<byte>)
    requires i < |xs|
    ensures before + EncAll(enc, xs[i..]) == before + enc(xs[i]) + EncAll(enc, xs[i + 1..])
  {
    assert xs[i..][1..] == xs[i + 1..];
  }

  lemma {:induction false} AllReadBack<T(!new)>(
      enc: T -> seq<byte>, dec: seq<byte> -> Parse<T>, fits: T -> bool, xs: seq<T>, rest: seq<byte>)
    requires IsCodec(enc, dec, fits)
    ensures var p := DecN(dec, |xs|, EncAll(enc, xs) + rest);
            if forall x | x in xs :: fits(x) then p == Ok(xs, rest) else !(p.Ok? && p.value == xs)
    decreases |xs|
  {
    if xs == [] {
      assert EncAll(enc, xs) + rest == rest;
    } else {
      var later := EncAll(enc, xs[1..]) + rest;
      assert EncAll(enc, xs) + rest == enc(xs[0]) + later;
      assert ReadsBackAt(enc, dec, fits, xs[0], later);
      AllReadBack(enc, dec, fits, xs[1..], rest);
      assert xs == [xs[0]] + xs[1..];
    }
  }

  lemma {:induction false} DecNStable<T>(dec: seq<byte> -> Parse<T>, n: nat, bs: seq<byte>, tail: seq<byte>)
    requires Stable(dec)
    ensures match DecN(dec, n, bs)
            case Ok(xs, rest) => IsSuffix(rest, bs) && DecN(dec, n, bs + tail) == Ok(xs, rest + tail)
            case Overflow => DecN(dec, n, bs + tail).Overflow?
            case Eof => true
  {
    if n > 0 {
      assert StableAt(dec, bs, tail);
      if dec(bs).Ok? {
        var rest := dec(bs).rest;
        DecNStable(dec, n - 1, rest, tail);
        if DecN(dec, n - 1, rest).Ok? {
          SuffixTransitive(DecN(dec, n - 1, rest).rest, rest, bs);
        }
      }
    }
  }

  /** The laws lift from the elements to the counted list, on its own exact condition. */
  lemma ListReadsBack<T(!new)>(
      enc: T -> seq<byte>, dec: seq<byte> -> Parse<T>, fits: T -> bool, xs: seq<T>, rest: seq<byte>)
    requires IsCodec(enc, dec, fits)
    ensures var p := DecList(dec, EncList(enc, xs) + rest);
            if ListFits(fits, xs) then p == Ok(xs, rest) else !(p.Ok? && p.value == xs)
  {
    var later := EncAll(enc, xs) + rest;
    assert EncList(enc, xs) + rest == EncVarint(|xs| % TWO32) + later;
    VarintRoundTrip(|xs| % TWO32, later);
    if |xs| < TWO32 {
      AllReadBack(enc, dec, fits, xs, rest);
    }
  }

  lemma ListStable<T>(dec: seq<byte> -> Parse<T>, bs: seq<byte>, tail: seq<byte>)
    requires Stable(dec)
    ensures match DecList(dec, bs)
            case Ok(xs, rest) => IsSuffix(rest, bs) && DecList(dec, bs + tail) == Ok(xs, rest + tail)
            case Overflow => DecList(dec, bs + tail).Overflow?
            case Eof => true
  {
    VarintStable(bs, tail, 0, 0);
    match DecVarint(bs)
    case Ok(n, rest) =>
      DecNStable(dec, n, rest, tail);
      if DecN(dec, n, rest).Ok? {
        SuffixTransitive(DecN(dec, n, rest).rest, rest, bs);
      }
    case _ =>
  }

  /** Equal concatenations of encodings come from equal lists. */
  lemma {:induction false} ConcatenationInjective<T(!new)>(
      enc: T -> seq<byte>, dec: seq<byte> -> Parse<T>, fits: T -> bool, xs: seq<T>, ys: seq<T>)
    requires IsCodec(enc, dec, fits)
    requires forall x :: enc(x) != []
    requires forall x | x in xs + ys :: fits(x)
    requires EncAll(enc, xs) == EncAll(enc, ys)
    ensures xs == ys
    decreases |xs|
  {
    if xs == [] {
    } else {
      assert enc(xs[0]) != [];
      assert ys != [];
      assert xs[0] in xs + ys && ys[0] in xs + ys;
      assert ReadsBackAt(enc, dec, fits, xs[0], EncAll(enc, xs[1..]));
      assert ReadsBackAt(enc, dec, fits, ys[0], EncAll(enc, ys[1..]));
      assert forall x | x in xs[1..] + ys[1..] :: x in xs + ys;
      ConcatenationInjective(enc, dec, fits, xs[1..], ys[1..]);
      assert xs == [xs[0]] + xs[1..] && ys == [ys[0]] + ys[1..];
    }
  }

  lemma {:induction false} EncAllAppend<T>(enc: T -> seq<byte>, xs: seq<T>, ys: seq<T>)
    ensures EncAll(enc, xs + ys) == EncAll(enc, xs) + EncAll(enc, ys)
    decreases |xs|
  {
    if xs == [] {
      assert xs + ys == ys;
    } else {
      assert (xs + ys)[1..] == xs[1..] + ys;
      EncAllAppend(enc, xs[1..], ys);
    }
  }
}
