/** `encodeCrockfordBase32`: the byte loop with its small bit accumulator computes the
    big-endian bit-stream encoding (the grouping of section 6 of RFC 4648, without padding,
    over Crockford's alphabet), which loses nothing. */
module Base32 {

  const CROCKFORD_ALPHABET: string := "0123456789ABCDEFGHJKMNPQRSTVWXYZ"
  const BITS_PER_BYTE: nat := 8
  const BITS_PER_SYMBOL: nat := 5

  type Byte = b: int | 0 <= b < 256

  function Pow2(n: nat): (p: nat)
    ensures p >= 1
  {
    if n == 0 then 1 else 2 * Pow2(n - 1)
  }

  /** `n << k`, `n >>> k`, and n masked to its k low bits, one bit at a time. */
  function ShiftLeft(n: nat, k: nat): nat {
    if k == 0 then n else 2 * ShiftLeft(n, k - 1)
  }

  function ShiftRight(n: nat, k: nat): nat {
    if k == 0 then n else ShiftRight(n / 2, k - 1)
  }

  function Masked(n: nat, k: nat): (m: nat)
    ensures m <= n && m < Pow2(k)
  {
    if k == 0 then 0 else 2 * Masked(n / 2, k - 1) + n % 2
  }

  // ------------------------------------------------------------- bit streams

  /** The low w bits of n, most significant first. */
  function BitsOf(n: nat, w: nat): (bits: seq<bool>)
    ensures |bits| == w
  {
    if w == 0 then [] else BitsOf(n / 2, w - 1) + [n % 2 == 1]
  }

  function FromBits(bits: seq<bool>): nat {
    if bits == [] then 0 else 2 * FromBits(bits[..|bits| - 1]) + (if bits[|bits| - 1] then 1 else 0)
  }

  /** The bytes as one big-endian stream of bits. */
  function Stream(input: seq<Byte>): (bits: seq<bool>)
    ensures |bits| == 8 * |input|
  {
    if input == [] then [] else Stream(input[..|input| - 1]) + BitsOf(input[|input| - 1], 8)
  }

  function Zeros(n: nat): seq<bool> {
    seq(n, _ => false)
  }

  lemma {:induction false} FromBitsBound(bits: seq<bool>)
    ensures FromBits(bits) < Pow2(|bits|)
    decreases |bits|
  {
    if bits != [] {
      FromBitsBound(bits[..|bits| - 1]);
    }
  }

  function SymbolOf(group: seq<bool>): char
    requires |group| == BITS_PER_SYMBOL
  {
    FromBitsBound(group);
    assert Pow2(5) == 32;
    CROCKFORD_ALPHABET[FromBits(group)]
  }

  /** One symbol per five bits; a last, partial group is padded with zeros on the right. */
  function Symbols(bits: seq<bool>): string {
    if bits == [] then ""
    else if |bits| < BITS_PER_SYMBOL then [SymbolOf(bits + Zeros(BITS_PER_SYMBOL - |bits|))]
    else [SymbolOf(bits[..BITS_PER_SYMBOL])] + Symbols(bits[BITS_PER_SYMBOL..])
  }

  /** What the encoder is for. */
  function Encoded(input: seq<Byte>): string {
    Symbols(Stream(input))
  }

  // ---------------------------------------------------------- bits and numbers

  lemma {:induction false} BitsRoundTrip(bits: seq<bool>)
    ensures BitsOf(FromBits(bits), |bits|) == bits
    decreases |bits|
  {
    if bits != [] {
      BitsRoundTrip(bits[..|bits| - 1]);
      assert bits == bits[..|bits| - 1] + [bits[|bits| - 1]];
    }
  }

  lemma {:induction false} NumberRoundTrip(n: nat, w: nat)
    requires n < Pow2(w)
    ensures FromBits(BitsOf(n, w)) == n
    decreases w
  {
    if w > 0 {
      NumberRoundTrip(n / 2, w - 1);
      assert BitsOf(n, w)[..w - 1] == BitsOf(n / 2, w - 1);
    }
  }

  lemma LastBit(n: nat, w: nat)
    requires w > 0
    ensures BitsOf(n, w) == BitsOf(n / 2, w - 1) + [n % 2 == 1]
  {
  }

  /** Splitting a number at bit k splits its bits. */
  lemma {:induction false} BitsSplit(n: nat, w: nat, k: nat)
    ensures BitsOf(n, w + k) == BitsOf(ShiftRight(n, k), w) + BitsOf(Masked(n, k), k)
    decreases k
  {
    if k > 0 {
      BitsSplit(n / 2, w, k - 1);
      LastBit(n, w + k);
      LastBit(Masked(n, k), k);
    }
  }

  /** Joining shifted bits with k new ones joins the bit strings; no carry is lost. */
  lemma {:induction false} BitsJoin(n: nat, w: nat, low: nat, k: nat)
    requires n < Pow2(w) && low < Pow2(k)
    ensures BitsOf(ShiftLeft(n, k) + low, w + k) == BitsOf(n, w) + BitsOf(low, k)
    ensures ShiftLeft(n, k) + low < Pow2(w + k)
    decreases k
  {
    if k > 0 {
      BitsJoin(n, w, low / 2, k - 1);
      LastBit(ShiftLeft(n, k) + low, w + k);
      LastBit(low, k);
    }
  }

  lemma {:induction false} HighBitsFit(n: nat, w: nat, k: nat)
    requires n < Pow2(w + k)
    ensures ShiftRight(n, k) < Pow2(w)
    decreases k
  {
    if k > 0 {
      HighBitsFit(n / 2, w, k - 1);
    }
  }

  // ------------------------------------------------------- symbols and groups

  lemma TakeAndDrop(a: seq<bool>, b: seq<bool>, k: nat)
    requires k <= |a|
    ensures (a + b)[..k] == a[..k] && (a + b)[k..] == a[k..] + b
  {
  }

  lemma {:induction false} SymbolsAppend(a: seq<bool>, b: seq<bool>)
    requires |a| % BITS_PER_SYMBOL == 0
    ensures Symbols(a + b) == Symbols(a) + Symbols(b)
    decreases |a|
  {
    if a == [] {
      assert a + b == b;
    } else {
      SymbolsAppend(a[5..], b);
      TakeAndDrop(a, b, 5);
      Reassociate([SymbolOf(a[..5])], Symbols(a[5..]), Symbols(b));
    }
  }

  lemma {:induction false} SymbolsLength(bits: seq<bool>)
    ensures |Symbols(bits)| == (|bits| + 4) / 5
    decreases |bits|
  {
    if |bits| >= 5 {
      SymbolsLength(bits[5..]);
    }
  }

  // ---------------------------------------------------------------- the loop

  /** The loop of the source: shift a byte in, emit symbols while five bits are there. The
      accumulator never holds more than twelve bits. */
  method EncodeCrockfordBase32(input: seq<Byte>) returns (output: string)
    ensures output == Encoded(input)
  {
    hide Pow2, ShiftLeft, ShiftRight, Masked, BitsOf, Symbols, Stream, Zeros, Pending;
    var accumulator: nat := 0;
    var bits: nat := 0;
    output := "";
    ghost var done: seq<bool> := [];
    NothingYet(input);
    for i := 0 to |input|
      invariant Pending(input[..i], done, accumulator, bits, output) && bits < BITS_PER_SYMBOL
    {
      ByteIn(input, i, done, accumulator, bits, output);
      accumulator := ShiftLeft(accumulator, BITS_PER_BYTE) + input[i];
      bits := bits + BITS_PER_BYTE;
      TwelveBits(input[..i + 1], done, accumulator, bits, output);
      while bits >= BITS_PER_SYMBOL
        invariant Pending(input[..i + 1], done, accumulator, bits, output)
        invariant bits <= 12 && accumulator < 4096
      {
        bits := bits - BITS_PER_SYMBOL;
        SymbolOut(input[..i + 1], done, accumulator, bits, output);
        output := output + [CROCKFORD_ALPHABET[Masked(ShiftRight(accumulator, bits), 5)]];
        done := done + BitsOf(ShiftRight(accumulator, bits), 5);
        accumulator := Masked(accumulator, bits);
      }
    }
    assert input[..|input|] == input;
    if bits > 0 {
      LastOut(input, done, accumulator, bits, output);
      output := output + [CROCKFORD_ALPHABET[Masked(ShiftLeft(accumulator, BITS_PER_SYMBOL - bits), 5)]];
    } else {
      NothingLeft(input, done, accumulator, output);
    }
  }

  /** The input so far is what has been emitted and what the accumulator still holds. */
  ghost predicate Pending(input: seq<Byte>, done: seq<bool>, acc: nat, bits: nat, output: string) {
    && acc < Pow2(bits) && |done| % BITS_PER_SYMBOL == 0 && output == Symbols(done)
    && Stream(input) == done + BitsOf(acc, bits)
  }

  lemma NothingYet(input: seq<Byte>)
    ensures Pending(input[..0], [], 0, 0, "")
  {
  }

  lemma StreamGrows(input: seq<Byte>, i: nat)
    requires i < |input|
    ensures Stream(input[..i + 1]) == Stream(input[..i]) + BitsOf(input[i], 8)
  {
    assert input[..i + 1][..i] == input[..i];
  }

  /** A byte comes in: nothing is lost to the left, and the accumulator's bits move up. */
  lemma ByteIn(input: seq<Byte>, i: nat, done: seq<bool>, acc: nat, bits: nat, output: string)
    requires i < |input| && Pending(input[..i], done, acc, bits, output)
    ensures Pending(input[..i + 1], done, ShiftLeft(acc, 8) + input[i], bits + 8, output)
  {
    hide BitsOf, ShiftLeft, Symbols, Stream, Pow2;
    Powers();
    BitsJoin(acc, bits, input[i], 8);
    StreamGrows(input, i);
    Reassociate(done, BitsOf(acc, bits), BitsOf(input[i], 8));
  }

  /** A symbol goes out: the five top bits of the accumulator. */
  lemma SymbolOut(input: seq<Byte>, done: seq<bool>, acc: nat, rest: nat, output: string)
    requires Pending(input, done, acc, rest + 5, output)
    ensures Masked(ShiftRight(acc, rest), 5) < 32
    ensures Pending(input, done + BitsOf(ShiftRight(acc, rest), 5), Masked(acc, rest), rest,
                    output + [CROCKFORD_ALPHABET[Masked(ShiftRight(acc, rest), 5)]])
  {
    hide BitsOf, ShiftRight, Symbols, Stream, Pow2;
    Powers();
    BitsSplit(acc, 5, rest);
    HighBitsFit(acc, 5, rest);
    MaskKeeps(ShiftRight(acc, rest), 5);
    OneSymbol(done, ShiftRight(acc, rest));
    Reassociate(done, BitsOf(ShiftRight(acc, rest), 5), BitsOf(Masked(acc, rest), rest));
  }

  /** The last, partial group goes out. */
  lemma LastOut(input: seq<Byte>, done: seq<bool>, acc: nat, bits: nat, output: string)
    requires 0 < bits < 5 && Pending(input, done, acc, bits, output)
    ensures Masked(ShiftLeft(acc, 5 - bits), 5) < 32
    ensures output + [CROCKFORD_ALPHABET[Masked(ShiftLeft(acc, 5 - bits), 5)]] == Encoded(input)
  {
    hide BitsOf, ShiftLeft, Symbols, Stream, Pow2, Zeros;
    Powers();
    BitsJoin(acc, bits, 0, 5 - bits);
    ZeroBits(5 - bits);
    MaskKeeps(ShiftLeft(acc, 5 - bits), 5);
    PaddedSymbol(done, BitsOf(acc, bits), ShiftLeft(acc, 5 - bits));
  }

  lemma NothingLeft(input: seq<Byte>, done: seq<bool>, acc: nat, output: string)
    requires Pending(input, done, acc, 0, output)
    ensures output == Encoded(input)
  {
    assert done + BitsOf(acc, 0) == done;
  }

  lemma Reassociate<T>(a: seq<T>, b: seq<T>, c: seq<T>)
    ensures a + (b + c) == a + b + c
  {
  }

  lemma Powers()
    ensures Pow2(5) == 32 && Pow2(8) == 256 && Pow2(12) == 4096
  {
  }

  lemma {:induction false} Pow2Grows(a: nat, b: nat)
    requires a <= b
    ensures Pow2(a) <= Pow2(b)
    decreases b
  {
    if a < b {
      Pow2Grows(a, b - 1);
    }
  }

  lemma TwelveBits(input: seq<Byte>, done: seq<bool>, acc: nat, bits: nat, output: string)
    requires bits <= 12 && Pending(input, done, acc, bits, output)
    ensures acc < 4096
  {
    Pow2Grows(bits, 12);
    Powers();
  }

  /** Five whole bits are one symbol. */
  lemma OneSymbol(done: seq<bool>, top: nat)
    requires |done| % 5 == 0 && top < 32
    ensures Symbols(done + BitsOf(top, 5)) == Symbols(done) + [CROCKFORD_ALPHABET[top]]
  {
    var group := BitsOf(top, 5);
    assert Pow2(5) == 32;
    NumberRoundTrip(top, 5);
    SymbolsAppend(done, group);
    assert group[..5] == group && group[5..] == [];
    assert Symbols(group) == [SymbolOf(group)];
  }

  /** A partial group is one symbol, zeros coming in from the right. */
  lemma PaddedSymbol(done: seq<bool>, part: seq<bool>, top: nat)
    requires |done| % 5 == 0 && 0 < |part| < 5 && top < 32 && BitsOf(top, 5) == part + Zeros(5 - |part|)
    ensures Symbols(done + part) == Symbols(done) + [CROCKFORD_ALPHABET[top]]
  {
    assert Pow2(5) == 32;
    NumberRoundTrip(top, 5);
    SymbolsAppend(done, part);
    assert Symbols(part) == [SymbolOf(part + Zeros(5 - |part|))];
  }

  /** Masking bits that are all there is changes nothing. */
  lemma {:induction false} MaskKeeps(n: nat, k: nat)
    requires n < Pow2(k)
    ensures Masked(n, k) == n
    decreases k
  {
    if k > 0 {
      MaskKeeps(n / 2, k - 1);
    }
  }

  lemma {:induction false} ZeroBits(w: nat)
    ensures BitsOf(0, w) == Zeros(w)
  {
    if w > 0 {
      ZeroBits(w - 1);
    }
  }

  // ----------------------------------------------------------------- theorems

  lemma EncodedLength(input: seq<Byte>)
    ensures |Encoded(input)| == (8 * |input| + 4) / 5
  {
    SymbolsLength(Stream(input));
  }

  /** The value of a symbol of the alphabet. */
  function ValueOf(c: char): nat {
    if '0' <= c <= '9' then (c - '0') as nat
    else if 'A' <= c <= 'H' then 10 + (c - 'A') as nat
    else if 'J' <= c <= 'K' then 18 + (c - 'J') as nat
    else if 'M' <= c <= 'N' then 20 + (c - 'M') as nat
    else if 'P' <= c <= 'T' then 22 + (c - 'P') as nat
    else if 'V' <= c <= 'Z' then 27 + (c - 'V') as nat
    else 0
  }

  lemma ValueOfSymbol(k: nat)
    requires k < 32
    ensures ValueOf(CROCKFORD_ALPHABET[k]) == k
  {
  }

  function SymbolBits(s: string): (bits: seq<bool>)
    ensures |bits| == 5 * |s|
  {
    if s == "" then [] else BitsOf(ValueOf(s[0]), 5) + SymbolBits(s[1..])
  }

  function Bytes(bits: seq<bool>): seq<nat> {
    if |bits| < 8 then [] else [FromBits(bits[..8])] + Bytes(bits[8..])
  }

  /** The decoder: as many whole bytes as the symbols hold. */
  function Decoded(s: string): seq<nat> {
    Bytes(SymbolBits(s)[..5 * |s| / 8 * 8])
  }

  lemma {:induction false} SymbolsHoldBits(bits: seq<bool>)
    ensures |bits| <= |SymbolBits(Symbols(bits))| && SymbolBits(Symbols(bits))[..|bits|] == bits
    decreases |bits|
  {
    if bits != [] {
      var group := if |bits| < 5 then bits + Zeros(5 - |bits|) else bits[..5];
      BitsRoundTrip(group);
      FromBitsBound(group);
      assert Pow2(5) == 32;
      ValueOfSymbol(FromBits(group));
      if |bits| >= 5 {
        SymbolsHoldBits(bits[5..]);
        assert Symbols(bits)[1..] == Symbols(bits[5..]);
        assert bits == group + bits[5..];
      } else {
        assert Symbols(bits) == [SymbolOf(group)];
        assert SymbolBits(Symbols(bits)) == group + [];
      }
    }
  }

  lemma {:induction false} BytesOfStream(input: seq<Byte>)
    ensures |Bytes(Stream(input))| == |input|
    ensures forall i :: 0 <= i < |input| ==> Bytes(Stream(input))[i] == input[i]
    decreases |input|
  {
    if input != [] {
      var front := input[..|input| - 1];
      BytesOfStream(front);
      BytesAppend(Stream(front), BitsOf(input[|input| - 1], 8));
      assert Pow2(8) == 256;
      NumberRoundTrip(input[|input| - 1], 8);
      var last := BitsOf(input[|input| - 1], 8);
      assert last[..8] == last && last[8..] == [];
      assert Bytes(last) == [FromBits(last)];
    }
  }

  lemma {:induction false} BytesAppend(a: seq<bool>, b: seq<bool>)
    requires |a| % 8 == 0
    ensures Bytes(a + b) == Bytes(a) + Bytes(b)
    decreases |a|
  {
    if a == [] {
      assert a + b == b;
    } else {
      BytesAppend(a[8..], b);
      TakeAndDrop(a, b, 8);
      Reassociate([FromBits(a[..8])], Bytes(a[8..]), Bytes(b));
    }
  }

  /** Decoding gives the input back, whatever it is. */
  lemma RoundTrip(input: seq<Byte>)
    ensures |Decoded(Encoded(input))| == |input|
    ensures forall i :: 0 <= i < |input| ==> Decoded(Encoded(input))[i] == input[i]
  {
    hide Stream, Symbols, SymbolBits, Bytes;
    EncodedLength(input);
    SymbolsHoldBits(Stream(input));
    BytesOfStream(input);
    assert 5 * |Encoded(input)| / 8 == |input|;
  }

  /** So different inputs have different encodings. */
  lemma Injective(a: seq<Byte>, b: seq<Byte>)
    requires Encoded(a) == Encoded(b)
    ensures a == b
  {
    RoundTrip(a);
    RoundTrip(b);
  }

  lemma StreamEnds(input: seq<Byte>, front: seq<Byte>, last: Byte)
    requires input == front + [last]
    ensures Stream(input) == Stream(front) + BitsOf(last, 8)
  {
    assert input[..|input| - 1] == front;
  }

  lemma {:induction false} StreamAppend(a: seq<Byte>, b: seq<Byte>)
    ensures Stream(a + b) == Stream(a) + Stream(b)
    decreases |b|
  {
    if b == [] {
      assert a + b == a;
    } else {
      hide Stream;
      var front, last := b[..|b| - 1], b[|b| - 1];
      StreamAppend(a, front);
      assert b == front + [last];
      Reassociate(a, front, [last]);
      StreamEnds(a + b, a + front, last);
      StreamEnds(b, front, last);
      Reassociate(Stream(a), Stream(front), BitsOf(last, 8));
    }
  }

  /** The symbols of the whole groups so far do not change when bytes are appended. */
  lemma PrefixStable(a: seq<Byte>, b: seq<Byte>)
    ensures var whole := 8 * |a| / 5;
            && whole <= |Encoded(a)| && whole <= |Encoded(a + b)|
            && Encoded(a + b)[..whole] == Encoded(a)[..whole]
  {
    var whole := 8 * |a| / 5;
    var s := Stream(a);
    var head, tail := s[..5 * whole], s[5 * whole..];
    StreamAppend(a, b);
    assert s == head + tail && s + Stream(b) == head + (tail + Stream(b));
    SymbolsAppend(head, tail);
    SymbolsAppend(head, tail + Stream(b));
    SymbolsLength(head);
  }
}
