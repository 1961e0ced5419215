/** The helper's SHA-256: blocks of 64 bytes compressed in place, and a tail of
    one block or two. Proved equal to the standard's digest of the bytes' bits. */
module Sha256 {
  import opened Sha256Standard

  type Byte = bv8
  type Block = b: seq<Byte> | |b| == 64 witness seq(64, _ => 0)

  // ----- Bytes as the standard's bits

  function BitsOfByte(b: Byte): (bits: seq<bool>)
    ensures |bits| == 8
  {
    [(b >> 7) & 1 == 1, (b >> 6) & 1 == 1, (b >> 5) & 1 == 1, (b >> 4) & 1 == 1,
     (b >> 3) & 1 == 1, (b >> 2) & 1 == 1, (b >> 1) & 1 == 1, b & 1 == 1]
  }

  function Flattened<A, B>(bitsOf: A -> seq<B>, xs: seq<A>): seq<B> {
    if |xs| == 0 then [] else Flattened(bitsOf, xs[..|xs| - 1]) + bitsOf(xs[|xs| - 1])
  }

  /** The bytes' bits, each byte's most significant first. */
  function Bits(bytes: seq<Byte>): seq<bool> { Flattened(BitsOfByte, bytes) }

  ghost predicate EightEach<A(!new), B>(bitsOf: A -> seq<B>) { forall x :: |bitsOf(x)| == 8 }

  lemma {:induction false} FlattenedLength<A(!new), B>(bitsOf: A -> seq<B>, xs: seq<A>)
    requires EightEach(bitsOf)
    ensures |Flattened(bitsOf, xs)| == 8 * |xs|
  {
    if |xs| > 0 {
      FlattenedLength(bitsOf, xs[..|xs| - 1]);
    }
  }

  lemma {:induction false} FlattenedConcat<A, B>(bitsOf: A -> seq<B>, a: seq<A>, b: seq<A>)
    ensures Flattened(bitsOf, a + b) == Flattened(bitsOf, a) + Flattened(bitsOf, b)
  {
    if |b| == 0 {
      assert a + b == a;
    } else {
      var front := b[..|b| - 1];
      FlattenedConcat(bitsOf, a, front);
      assert (a + b)[..|a + b| - 1] == a + front;
    }
  }

  lemma Middle<T>(a: seq<T>, b: seq<T>, c: seq<T>)
    ensures (a + b + c)[|a|..|a| + |b|] == b
  {
  }

  lemma FlattenedSlice<A(!new), B>(bitsOf: A -> seq<B>, xs: seq<A>, lo: nat, hi: nat)
    requires EightEach(bitsOf) && lo <= hi <= |xs|
    ensures |Flattened(bitsOf, xs)| == 8 * |xs|
    ensures Flattened(bitsOf, xs)[8 * lo..8 * hi] == Flattened(bitsOf, xs[lo..hi])
  {
    var a, b, c := xs[..lo], xs[lo..hi], xs[hi..];
    assert xs == a + b + c;
    FlattenedConcat(bitsOf, a, b);
    FlattenedConcat(bitsOf, a + b, c);
    FlattenedLength(bitsOf, a);
    FlattenedLength(bitsOf, b);
    FlattenedLength(bitsOf, xs);
    Middle(Flattened(bitsOf, a), Flattened(bitsOf, b), Flattened(bitsOf, c));
  }

  // ----- Words: `u32::from_be_bytes`

  function BigEndianWord(b: seq<Byte>): Word
    requires |b| == 4
  {
    (b[0] as Word << 24) | (b[1] as Word << 16) | (b[2] as Word << 8) | (b[3] as Word)
  }

  lemma {:induction false} GatheredConcat<W>(push: (W, bool) -> W, w: W, a: seq<bool>, b: seq<bool>)
    ensures Gathered(push, w, a + b) == Gathered(push, Gathered(push, w, a), b)
  {
    if |b| == 0 {
      assert a + b == a;
    } else {
      GatheredConcat(push, w, a, b[..|b| - 1]);
      assert (a + b)[..|a + b| - 1] == a + b[..|b| - 1];
    }
  }

  lemma GatheredStep<W>(push: (W, bool) -> W, w: W, s: seq<bool>)
    requires |s| > 0
    ensures Gathered(push, w, s) == Gathered(push, push(w, s[0]), s[1..])
  {
    GatheredConcat(push, w, [s[0]], s[1..]);
    assert [s[0]] + s[1..] == s;
    assert Gathered(push, w, [s[0]]) == push(Gathered(push, w, []), s[0]);
  }

  function Shift(w: Word, b: Byte): Word { (w << 8) | (b as Word) }

  lemma GatheredByte(w: Word, b: Byte)
    ensures Gathered(Push, w, BitsOfByte(b)) == Shift(w, b)
  {
    GatheredEight(Push, w, BitsOfByte(b));
  }

  lemma GatheredEight<W>(push: (W, bool) -> W, w: W, s: seq<bool>)
    requires |s| == 8
    ensures Gathered(push, w, s)
            == push(push(push(push(push(push(push(push(w, s[0]), s[1]), s[2]), s[3]), s[4]), s[5]), s[6]), s[7])
  {
    GatheredFour(push, w, s[..4]);
    GatheredFour(push, Gathered(push, w, s[..4]), s[4..]);
    GatheredConcat(push, w, s[..4], s[4..]);
    assert s[..4] + s[4..] == s;
  }

  lemma GatheredFour<W>(push: (W, bool) -> W, w: W, s: seq<bool>)
    requires |s| == 4
    ensures Gathered(push, w, s) == push(push(push(push(w, s[0]), s[1]), s[2]), s[3])
  {
    GatheredStep(push, w, s);
    GatheredStep(push, push(w, s[0]), s[1..]);
    GatheredStep(push, push(push(w, s[0]), s[1]), s[1..][1..]);
    GatheredStep(push, push(push(push(w, s[0]), s[1]), s[2]), s[1..][1..][1..]);
  }

  ghost predicate ShiftsByPushing<A(!new), W(!new)>(push: (W, bool) -> W, bitsOf: A -> seq<bool>, shift: (W, A) -> W) {
    forall w, x :: Gathered(push, w, bitsOf(x)) == shift(w, x)
  }

  lemma GatheredFromFour<A(!new), W(!new)>(
    push: (W, bool) -> W, w: W, bitsOf: A -> seq<bool>, shift: (W, A) -> W, b: seq<A>)
    requires |b| == 4 && ShiftsByPushing(push, bitsOf, shift)
    ensures Gathered(push, w, Flattened(bitsOf, b)) == shift(shift(shift(shift(w, b[0]), b[1]), b[2]), b[3])
  {
    FlattenedFour(bitsOf, b);
    GatheredConcat(push, w, bitsOf(b[0]), bitsOf(b[1]));
    GatheredConcat(push, w, bitsOf(b[0]) + bitsOf(b[1]), bitsOf(b[2]));
    GatheredConcat(push, w, bitsOf(b[0]) + bitsOf(b[1]) + bitsOf(b[2]), bitsOf(b[3]));
  }

  lemma FlattenedFour<A>(bitsOf: A -> seq<bool>, b: seq<A>)
    requires |b| == 4
    ensures Flattened(bitsOf, b) == bitsOf(b[0]) + bitsOf(b[1]) + bitsOf(b[2]) + bitsOf(b[3])
  {
    FlattenedTwo(bitsOf, b[..2]);
    FlattenedTwo(bitsOf, b[2..]);
    FlattenedConcat(bitsOf, b[..2], b[2..]);
    assert b[..2] + b[2..] == b;
  }

  lemma FlattenedTwo<A>(bitsOf: A -> seq<bool>, b: seq<A>)
    requires |b| == 2
    ensures Flattened(bitsOf, b) == bitsOf(b[0]) + bitsOf(b[1])
  {
    assert b[..1][..0] == [];
    assert Flattened(bitsOf, b[..1]) == [] + bitsOf(b[0]);
  }

  lemma ShiftedBytes(a: Byte, b: Byte, c: Byte, d: Byte)
    ensures Shift(Shift(Shift(Shift(0, a), b), c), d)
            == (a as Word << 24) | (b as Word << 16) | (c as Word << 8) | (d as Word)
  {
  }

  lemma GatheredFourBytes(b: seq<Byte>)
    requires |b| == 4
    ensures Gathered(Push, 0, Bits(b)) == BigEndianWord(b)
  {
    forall w: Word, x: Byte
      ensures Gathered(Push, w, BitsOfByte(x)) == Shift(w, x)
    {
      GatheredByte(w, x);
    }
    GatheredFromFour(Push, 0, BitsOfByte, Shift, b);
    ShiftedBytes(b[0], b[1], b[2], b[3]);
  }

  /** A block's sixteen big-endian words. */
  function BlockWords(block: seq<Byte>): (words: seq<Word>)
    requires |block| == 64
    ensures |words| == 16
  {
    seq(16, i requires 0 <= i < 16 => BigEndianWord(block[4 * i..4 * i + 4]))
  }

  lemma BlockWordsAreParsed(block: seq<Byte>)
    requires |block| == 64
    ensures |Bits(block)| == 512 && Parsed(Bits(block)) == BlockWords(block)
  {
    FlattenedLength(BitsOfByte, block);
    forall i | 0 <= i < 16
      ensures WordOf(Bits(block)[32 * i..32 * i + 32]) == BigEndianWord(block[4 * i..4 * i + 4])
    {
      FlattenedSlice(BitsOfByte, block, 4 * i, 4 * i + 4);
      GatheredFourBytes(block[4 * i..4 * i + 4]);
    }
  }

  // ----- The length in bits: `u64::to_be_bytes`

  /** `n` in `count` bytes, the most significant first. */
  function BigEndianBytes(n: nat, count: nat): (bytes: seq<Byte>)
    ensures |bytes| == count
  {
    seq(count, i requires 0 <= i < count => (n / PowerOfTwo(8 * (count - 1 - i)) % 256) as Byte)
  }

  lemma ByteInBinary(n: nat)
    requires n < 256
    ensures BitsOfByte(n as Byte) == EightBits(n)
  {
  }

  lemma Multiply(c: nat, p: nat, q: nat, r: nat)
    requires r < p
    ensures c * (p * q + r) == (c * p) * q + c * r && c * r + c <= c * p
  {
    assert c * (p * q + r) == c * (p * q) + c * r;
    assert c * (p * q) == (c * p) * q;
    assert c * (r + 1) <= c * p;
  }

  lemma DividedTwice(n: nat, c: nat, p: nat)
    requires p > 0 && c > 0
    ensures c * p > 0 && n / c / p == n / (c * p)
  {
    QuotientOfQuotient(n, c, p, n / c, n % c, n / c / p, n / c % p);
  }

  lemma QuotientOfQuotient(n: nat, c: nat, p: nat, m: nat, s: nat, q: nat, r: nat)
    requires n == c * m + s && s < c && m == p * q + r && r < p
    ensures c * p > 0 && n / (c * p) == q
  {
    Multiply(c, p, q, r);
    QuotientIs(n, c * p, q, c * r + s);
  }

  lemma MultipleIsFar(d: nat, x: int)
    requires d > 0
    ensures (x >= 1 ==> d * x >= d) && (x <= -1 ==> d * x + d <= 0)
  {
  }

  lemma QuotientIs(n: nat, d: nat, q: nat, r: nat)
    requires d > 0 && n == d * q + r && r < d
    ensures n / d == q
  {
    var k := n / d;
    assert n == d * k + n % d;
    assert d * (q - k) == n % d - r;
    MultipleIsFar(d, q - k);
  }

  lemma BinaryDigit(n: nat, width: nat, i: nat)
    requires i < width
    ensures Binary(n, width + 1)[i] == Binary(n / 2, width)[i]
  {
    var p := PowerOfTwo(width - 1 - i);
    DividedTwice(n, 2, p);
    assert PowerOfTwo(width - i) == 2 * p;
  }

  lemma BinaryStep(n: nat, width: nat)
    ensures Binary(n, width + 1) == Binary(n / 2, width) + [n % 2 == 1]
  {
    forall i | 0 <= i < width
      ensures Binary(n, width + 1)[i] == Binary(n / 2, width)[i]
    {
      BinaryDigit(n, width, i);
    }
    assert PowerOfTwo(0) == 1;
    assert Binary(n, width + 1)[width] == (n % 2 == 1);
  }

  lemma BinaryOfFour(n: nat, width: nat)
    ensures Binary(n, width + 4)
            == Binary(n / 16, width) + [n / 8 % 2 == 1, n / 4 % 2 == 1, n / 2 % 2 == 1, n % 2 == 1]
  {
    BinaryStep(n, width + 3);
    BinaryStep(n / 2, width + 2);
    BinaryStep(n / 4, width + 1);
    BinaryStep(n / 8, width);
  }

  lemma HalfOfPower(high: nat, width: nat)
    requires width > 0
    ensures high * PowerOfTwo(width) == 2 * (high * PowerOfTwo(width - 1))
  {
  }

  lemma {:induction false} BinaryOfJoined(high: nat, low: nat, width: nat, lowWidth: nat)
    requires low < PowerOfTwo(lowWidth)
    ensures Binary(high * PowerOfTwo(lowWidth) + low, width + lowWidth) == Binary(high, width) + Binary(low, lowWidth)
  {
    if lowWidth > 0 {
      var half := high * PowerOfTwo(lowWidth - 1);
      HalfOfPower(high, lowWidth);
      BinaryOfJoined(high, low / 2, width, lowWidth - 1);
      BinaryStep(2 * half + low, width + lowWidth - 1);
      BinaryStep(low, lowWidth - 1);
    }
  }

  function EightBits(n: nat): seq<bool> {
    [n / 128 % 2 == 1, n / 64 % 2 == 1, n / 32 % 2 == 1, n / 16 % 2 == 1,
     n / 8 % 2 == 1, n / 4 % 2 == 1, n / 2 % 2 == 1, n % 2 == 1]
  }

  lemma BinaryOfEight(n: nat)
    ensures Binary(n, 8) == EightBits(n)
  {
    BinaryOfFour(n, 4);
    BinaryOfFour(n / 16, 0);
    assert n / 16 / 8 == n / 128 && n / 16 / 4 == n / 64 && n / 16 / 2 == n / 32;
  }

  lemma BitsOfByteAreBinary(n: nat)
    requires n < 256
    ensures BitsOfByte(n as Byte) == Binary(n, 8)
  {
    ByteInBinary(n);
    BinaryOfEight(n);
  }

  lemma BinaryOfByte(n: nat, width: nat)
    ensures Binary(n, width + 8) == Binary(n / 256, width) + BitsOfByte((n % 256) as Byte)
  {
    assert PowerOfTwo(8) == 256;
    BinaryOfJoined(n / 256, n % 256, width, 8);
    BitsOfByteAreBinary(n % 256);
  }

  lemma BigEndianDigit(n: nat, count: nat, i: nat)
    requires i < count
    ensures BigEndianBytes(n, count + 1)[i] == BigEndianBytes(n / 256, count)[i]
  {
    var k := 8 * (count - 1 - i);
    DividedTwice(n, 256, PowerOfTwo(k));
    PowerOfEightMore(k);
  }

  lemma PowerOfEightMore(k: nat)
    ensures PowerOfTwo(k + 8) == 256 * PowerOfTwo(k)
  {
    assert PowerOfTwo(k + 4) == 16 * PowerOfTwo(k) by {
      assert PowerOfTwo(k + 2) == 4 * PowerOfTwo(k);
    }
    assert PowerOfTwo(k + 6) == 64 * PowerOfTwo(k);
  }

  lemma BigEndianStep(n: nat, count: nat)
    ensures BigEndianBytes(n, count + 1) == BigEndianBytes(n / 256, count) + [(n % 256) as Byte]
  {
    forall i | 0 <= i < count
      ensures BigEndianBytes(n, count + 1)[i] == BigEndianBytes(n / 256, count)[i]
    {
      BigEndianDigit(n, count, i);
    }
    assert PowerOfTwo(0) == 1;
    assert BigEndianBytes(n, count + 1)[count] == (n % 256) as Byte;
  }

  lemma {:induction false} BinaryOfBytes(n: nat, count: nat)
    ensures Bits(BigEndianBytes(n, count)) == Binary(n, 8 * count)
  {
    if count > 0 {
      var front := BigEndianBytes(n / 256, count - 1);
      BinaryOfBytes(n / 256, count - 1);
      BinaryOfByte(n, 8 * count - 8);
      BigEndianStep(n, count - 1);
      assert (front + [(n % 256) as Byte])[..|front|] == front;
    }
  }

  // ----- Hashing bytes, block by block

  function CompressedBlock(hash: Hash, block: Block): Hash { Compressed(hash, BlockWords(block)) }

  function Chained<H>(step: (H, Block) -> H, hash: H, bytes: seq<Byte>): H
    decreases |bytes|
  {
    if |bytes| < 64 then hash else Chained(step, step(hash, bytes[..64]), bytes[64..])
  }

  /** Every whole block of `bytes`, in order, into `hash`. */
  function HashedBytes(hash: Hash, bytes: seq<Byte>): Hash { Chained(CompressedBlock, hash, bytes) }

  lemma {:induction false} ChainedInTwoParts<H>(step: (H, Block) -> H, hash: H, a: seq<Byte>, b: seq<Byte>)
    requires |a| % 64 == 0
    ensures Chained(step, hash, a + b) == Chained(step, Chained(step, hash, a), b)
    decreases |a|
  {
    if |a| == 0 {
      assert a + b == b;
    } else {
      assert (a + b)[..64] == a[..64] && (a + b)[64..] == a[64..] + b;
      ChainedInTwoParts(step, step(hash, a[..64]), a[64..], b);
    }
  }

  lemma {:induction false} HashedBytesAreHashedBits(hash: Hash, bytes: seq<Byte>)
    ensures HashedBytes(hash, bytes) == Hashed(hash, Bits(bytes))
    decreases |bytes|
  {
    FlattenedLength(BitsOfByte, bytes);
    if |bytes| >= 64 {
      FlattenedSlice(BitsOfByte, bytes, 0, 64);
      FlattenedSlice(BitsOfByte, bytes, 64, |bytes|);
      assert bytes[64..|bytes|] == bytes[64..] && Bits(bytes)[512..8 * |bytes|] == Bits(bytes)[512..];
      assert bytes[0..64] == bytes[..64] && Bits(bytes)[8 * 0..512] == Bits(bytes)[..512];
      BlockWordsAreParsed(bytes[..64]);
      HashedBytesAreHashedBits(CompressedBlock(hash, bytes[..64]), bytes[64..]);
    }
  }

  function ZeroBytes(count: nat): (bytes: seq<Byte>)
    ensures |bytes| == count
  {
    seq(count, _ => 0)
  }

  /** What is added after a message whose last block is `rest` bytes long and
      whose length in bits is `bits`: a one bit, zeros and the length, up to
      the end of that block or of the next. */
  function TailLength(rest: nat): nat { if rest < 56 then 64 else 128 }

  function Tail(rest: nat, bits: nat): (tail: seq<Byte>)
    requires rest < 64
    ensures |tail| == TailLength(rest) - rest
  {
    [0x80] + ZeroBytes(TailLength(rest) - rest - 9) + BigEndianBytes(bits % 0x1_0000_0000_0000_0000, 8)
  }

  lemma {:induction false} BitsOfZeroBytes(count: nat)
    ensures Bits(ZeroBytes(count)) == Zeros(8 * count)
  {
    if count > 0 {
      BitsOfZeroBytes(count - 1);
      assert ZeroBytes(count)[..count - 1] == ZeroBytes(count - 1);
    }
  }

  lemma BitsOfMark()
    ensures Bits([0x80]) == [true] + Zeros(7)
  {
    assert Flattened(BitsOfByte, [0x80 as Byte]) == [] + BitsOfByte(0x80);
  }

  lemma TailFillsTheBlock(rest: nat, bits: nat)
    requires rest < 64 && bits % 512 == 8 * rest
    ensures ZeroCount(bits) == 7 + 8 * (TailLength(rest) - rest - 9)
  {
  }

  lemma BitsOfMarkAndZeros(zeros: nat)
    ensures Bits([0x80] + ZeroBytes(zeros)) == [true] + Zeros(7 + 8 * zeros)
  {
    FlattenedConcat(BitsOfByte, [0x80], ZeroBytes(zeros));
    BitsOfMark();
    BitsOfZeroBytes(zeros);
    assert Zeros(7) + Zeros(8 * zeros) == Zeros(7 + 8 * zeros);
  }

  lemma BitsOfTail(rest: nat, bits: nat)
    requires rest < 64 && bits % 512 == 8 * rest && bits < 0x1_0000_0000_0000_0000
    ensures Bits(Tail(rest, bits)) == [true] + Zeros(ZeroCount(bits)) + Binary(bits, 64)
  {
    var zeros := TailLength(rest) - rest - 9;
    TailFillsTheBlock(rest, bits);
    BitsOfMarkAndZeros(zeros);
    FlattenedConcat(BitsOfByte, [0x80] + ZeroBytes(zeros), BigEndianBytes(bits, 8));
    BinaryOfBytes(bits, 8);
  }

  /** The blocks the helper compresses are the padded message of section
      5.1.1, bit for bit. */
  lemma TailPadsTheMessage(bytes: seq<Byte>)
    requires |bytes| < 0x2000_0000_0000_0000
    ensures |Bits(bytes)| == 8 * |bytes|
    ensures Bits(bytes + Tail(|bytes| % 64, 8 * |bytes|)) == Padded(Bits(bytes))
  {
    var bits := 8 * |bytes|;
    assert bits % 512 == 8 * (|bytes| % 64);
    FlattenedLength(BitsOfByte, bytes);
    BitsOfTail(|bytes| % 64, bits);
    FlattenedConcat(BitsOfByte, bytes, Tail(|bytes| % 64, bits));
    PaddedInParts(Bits(bytes));
  }

  lemma PaddedInParts(message: seq<bool>)
    requires |message| < 0x1_0000_0000_0000_0000
    ensures Padded(message) == message + ([true] + Zeros(ZeroCount(|message|)) + Binary(|message|, 64))
  {
  }

  // ----- The digest as text: `format!("{word:08x}")`

  function HexDigit(n: Word): char {
    if n == 0 then '0' else if n == 1 then '1' else if n == 2 then '2' else if n == 3 then '3'
    else if n == 4 then '4' else if n == 5 then '5' else if n == 6 then '6' else if n == 7 then '7'
    else if n == 8 then '8' else if n == 9 then '9' else if n == 10 then 'a' else if n == 11 then 'b'
    else if n == 12 then 'c' else if n == 13 then 'd' else if n == 14 then 'e' else 'f'
  }

  function Nibble(w: Word, shift: nat): Word
    requires shift < 32
  {
    (w >> shift) & 15
  }

  function Digits(digit: Word -> char, w: Word): (text: string)
    ensures |text| == 8
  {
    [digit(Nibble(w, 28)), digit(Nibble(w, 24)), digit(Nibble(w, 20)), digit(Nibble(w, 16)),
     digit(Nibble(w, 12)), digit(Nibble(w, 8)), digit(Nibble(w, 4)), digit(Nibble(w, 0))]
  }

  function HexOfWord(w: Word): (text: string)
    ensures |text| == 8
  {
    Digits(HexDigit, w)
  }

  function HexOf(words: seq<Word>): string { Flattened(HexOfWord, words) }

  ghost predicate DistinguishesNibbles(digit: Word -> char) {
    forall n: Word, m: Word | n < 16 && m < 16 && digit(n) == digit(m) :: n == m
  }

  lemma HexDigitDistinguishesNibbles()
    ensures DistinguishesNibbles(HexDigit)
  {
  }

  lemma NibbleIsSmall(w: Word, shift: nat)
    requires shift < 32
    ensures Nibble(w, shift) < 16
  {
  }

  lemma NibblesAreTheWord(v: Word, w: Word)
    requires Nibble(v, 28) == Nibble(w, 28) && Nibble(v, 24) == Nibble(w, 24)
    requires Nibble(v, 20) == Nibble(w, 20) && Nibble(v, 16) == Nibble(w, 16)
    requires Nibble(v, 12) == Nibble(w, 12) && Nibble(v, 8) == Nibble(w, 8)
    requires Nibble(v, 4) == Nibble(w, 4) && Nibble(v, 0) == Nibble(w, 0)
    ensures v == w
  {
  }

  lemma NibbleIsRead(digit: Word -> char, v: Word, w: Word, shift: nat)
    requires shift < 32 && DistinguishesNibbles(digit)
    requires digit(Nibble(v, shift)) == digit(Nibble(w, shift))
    ensures Nibble(v, shift) == Nibble(w, shift)
  {
    NibbleIsSmall(v, shift);
    NibbleIsSmall(w, shift);
  }

  lemma DigitsAreInjective(digit: Word -> char, v: Word, w: Word)
    requires DistinguishesNibbles(digit) && Digits(digit, v) == Digits(digit, w)
    ensures v == w
  {
    var s, t := Digits(digit, v), Digits(digit, w);
    assert s[0] == t[0] && s[1] == t[1] && s[2] == t[2] && s[3] == t[3];
    assert s[4] == t[4] && s[5] == t[5] && s[6] == t[6] && s[7] == t[7];
    NibbleIsRead(digit, v, w, 28);
    NibbleIsRead(digit, v, w, 24);
    NibbleIsRead(digit, v, w, 20);
    NibbleIsRead(digit, v, w, 16);
    NibbleIsRead(digit, v, w, 12);
    NibbleIsRead(digit, v, w, 8);
    NibbleIsRead(digit, v, w, 4);
    NibbleIsRead(digit, v, w, 0);
    NibblesAreTheWord(v, w);
  }

  lemma HexOfWordIsInjective(v: Word, w: Word)
    requires HexOfWord(v) == HexOfWord(w)
    ensures v == w
  {
    HexDigitDistinguishesNibbles();
    DigitsAreInjective(HexDigit, v, w);
  }

  ghost predicate Distinguishes<A(!new)>(textOf: A -> string) {
    forall v, w | textOf(v) == textOf(w) :: v == w
  }

  lemma {:induction false} FlattenedIsInjective<A(!new)>(textOf: A -> string, v: seq<A>, w: seq<A>)
    requires EightEach(textOf) && Distinguishes(textOf)
    requires |v| == |w| && Flattened(textOf, v) == Flattened(textOf, w)
    ensures v == w
  {
    if |v| > 0 {
      var n := |v| - 1;
      var a, b := Flattened(textOf, v[..n]), Flattened(textOf, w[..n]);
      FlattenedLength(textOf, v[..n]);
      FlattenedLength(textOf, w[..n]);
      SameParts(a, textOf(v[n]), b, textOf(w[n]));
      FlattenedIsInjective(textOf, v[..n], w[..n]);
      assert v[n] == w[n];
      assert v == v[..n] + [v[n]] && w == w[..n] + [w[n]];
    }
  }

  lemma SameParts<T>(a: seq<T>, x: seq<T>, b: seq<T>, y: seq<T>)
    requires a + x == b + y && |a| == |b|
    ensures a == b && x == y
  {
    assert (a + x)[..|a|] == a && (b + y)[..|b|] == b;
    assert (a + x)[|a|..] == x && (b + y)[|b|..] == y;
  }

  /** Two digests read alike only when they are the same digest, so comparing
      the pin's text compares digests. */
  lemma HexOfIsInjective(v: Hash, w: Hash)
    requires HexOf(v) == HexOf(w)
    ensures v == w
  {
    forall a, b | HexOfWord(a) == HexOfWord(b)
      ensures a == b
    {
      HexOfWordIsInjective(a, b);
    }
    FlattenedIsInjective(HexOfWord, v, w);
  }

  // ----- The implementation

  /** The block's words. */
  method ReadBlock(w: array<Word>, block: Block)
    requires w.Length == 64
    modifies w
    ensures w[..16] == BlockWords(block)
  {
    for i := 0 to 16
      invariant w[..i] == BlockWords(block)[..i]
    {
      w[i] := BigEndianWord(block[4 * i..4 * i + 4]);
    }
  }

  /** Word `i` of the schedule, from the words before it. */
  method ScheduleWord(w: array<Word>, i: nat) returns (next: Word)
    requires 16 <= i < w.Length
    ensures next == NextWord(w[..i])
  {
    var w16, w15, w7, w2 := w[i - 16], w[i - 15], w[i - 7], w[i - 2];
    ghost var words := w[..i];
    assert words[i - 16] == w16 && words[i - 15] == w15 && words[i - 7] == w7 && words[i - 2] == w2;
    var s0 := RotateRight(w15, 7) ^ RotateRight(w15, 18) ^ ShiftRight(w15, 3);
    var s1 := RotateRight(w2, 17) ^ RotateRight(w2, 19) ^ ShiftRight(w2, 10);
    next := Plus(Plus(Plus(w16, s0), w7), s1);
    SmallSigmasInline(w15, w2);
    NextWordInOrder(words, s0, s1);
  }

  /** The rest of the block's schedule. */
  method ExtendSchedule(w: array<Word>)
    requires w.Length == 64
    modifies w
    ensures w[..] == Schedule(old(w[..16]))
  {
    for i := 16 to 64
      invariant Schedule(w[..i]) == Schedule(old(w[..16]))
    {
      ghost var before := w[..i];
      var next := ScheduleWord(w, i);
      w[i] := next;
      assert w[..i + 1] == before + [NextWord(before)];
    }
    assert w[..] == w[..64];
  }

  lemma SmallSigmasInline(x: Word, y: Word)
    ensures RotateRight(x, 7) ^ RotateRight(x, 18) ^ ShiftRight(x, 3) == SmallSigma0(x)
    ensures RotateRight(y, 17) ^ RotateRight(y, 19) ^ ShiftRight(y, 10) == SmallSigma1(y)
  {
  }

  lemma NextWordInOrder(w: seq<Word>, s0: Word, s1: Word)
    requires 16 <= |w|
    requires s0 == SmallSigma0(w[|w| - 15]) && s1 == SmallSigma1(w[|w| - 2])
    ensures Plus(Plus(Plus(w[|w| - 16], s0), w[|w| - 7]), s1) == NextWord(w)
  {
    SumInAnyOrder(w[|w| - 16], s0, w[|w| - 7], s1);
  }

  lemma SumInAnyOrder(a: Word, b: Word, c: Word, d: Word)
    ensures Plus(Plus(Plus(a, b), c), d) == Plus(d, Plus(c, Plus(b, a)))
  {
    PlusCommutes(a, b);
    PlusCommutes(Plus(a, b), c);
    PlusCommutes(Plus(Plus(a, b), c), d);
  }

  lemma PlusCommutes(a: Word, b: Word)
    ensures Plus(a, b) == Plus(b, a)
  {
  }

  /** One round, on eight working variables. */
  method TakeRound(v: Working, k: Word, w: Word) returns (out: Working)
    ensures out == Round(v, k, w)
  {
    var a, b, c, d, e, f, g, h := v.a, v.b, v.c, v.d, v.e, v.f, v.g, v.h;
    var s1 := RotateRight(e, 6) ^ RotateRight(e, 11) ^ RotateRight(e, 25);
    var choice := (e & f) ^ (!e & g);
    var t1 := Plus(Plus(Plus(Plus(h, s1), choice), k), w);
    var s0 := RotateRight(a, 2) ^ RotateRight(a, 13) ^ RotateRight(a, 22);
    var majority := (a & b) ^ (a & c) ^ (b & c);
    var t2 := Plus(s0, majority);
    SigmasInline(a, e);
    ChoiceAndMajorityInline(e, f, g, a, b, c);
    RoundInParts(v, k, w, s1, choice, s0, majority);
    h := g;
    g := f;
    f := e;
    e := Plus(d, t1);
    d := c;
    c := b;
    b := a;
    a := Plus(t1, t2);
    out := Working(a, b, c, d, e, f, g, h);
  }

  lemma SigmasInline(a: Word, e: Word)
    ensures RotateRight(e, 6) ^ RotateRight(e, 11) ^ RotateRight(e, 25) == BigSigma1(e)
    ensures RotateRight(a, 2) ^ RotateRight(a, 13) ^ RotateRight(a, 22) == BigSigma0(a)
  {
  }

  lemma ChoiceAndMajorityInline(e: Word, f: Word, g: Word, a: Word, b: Word, c: Word)
    ensures (e & f) ^ (!e & g) == Ch(e, f, g)
    ensures (a & b) ^ (a & c) ^ (b & c) == Maj(a, b, c)
  {
  }

  lemma RoundInParts(v: Working, k: Word, w: Word, s1: Word, choice: Word, s0: Word, majority: Word)
    requires s1 == BigSigma1(v.e) && choice == Ch(v.e, v.f, v.g)
    requires s0 == BigSigma0(v.a) && majority == Maj(v.a, v.b, v.c)
    ensures var t1 := Plus(Plus(Plus(Plus(v.h, s1), choice), k), w);
            Round(v, k, w) == Working(Plus(t1, Plus(s0, majority)), v.a, v.b, v.c, Plus(v.d, t1), v.e, v.f, v.g)
  {
  }

  /** The 64 rounds. */
  method RunRounds(w: array<Word>, first: Working) returns (v: Working)
    requires w.Length == 64
    ensures v == Rounds(first, w[..])
  {
    v := first;
    for i := 0 to 64
      invariant v == Rounds(first, w[..i])
    {
      assert w[..i + 1][..i] == w[..i];
      v := TakeRound(v, K(i), w[i]);
    }
    assert w[..64] == w[..];
  }

  /** The working variables into the state, word by word. */
  method AddInto(state: array<Word>, added: seq<Word>)
    requires state.Length == |added| == 8
    modifies state
    ensures state[..] == Added(old(state[..]), added)
  {
    for i := 0 to 8
      invariant forall k :: 0 <= k < i ==> state[k] == Plus(old(state[k]), added[k])
      invariant forall k :: i <= k < 8 ==> state[k] == old(state[k])
    {
      state[i] := Plus(state[i], added[i]);
    }
  }

  /** One 64-byte block into the state. */
  method Compress(state: array<Word>, block: Block)
    requires state.Length == 8
    modifies state
    ensures state[..] == CompressedBlock(old(state[..]), block)
  {
    var w := new Word[64](_ => 0);
    ReadBlock(w, block);
    ExtendSchedule(w);
    var v := RunRounds(w, Working(state[0], state[1], state[2], state[3], state[4], state[5], state[6], state[7]));
    AddInto(state, [v.a, v.b, v.c, v.d, v.e, v.f, v.g, v.h]);
  }

  /** Each whole 64-byte block of `bytes` into the state, in order. */
  method CompressAll(state: array<Word>, bytes: seq<Byte>)
    requires state.Length == 8
    modifies state
    ensures state[..] == HashedBytes(old(state[..]), bytes)
  {
    for i := 0 to |bytes| / 64
      invariant HashedBytes(state[..], bytes[64 * i..]) == HashedBytes(old(state[..]), bytes)
    {
      var block := bytes[64 * i..64 * i + 64];
      assert bytes[64 * i..][..64] == block && bytes[64 * i..][64..] == bytes[64 * (i + 1)..];
      Compress(state, block);
    }
  }

  /** What is left of the message, and its end: one block or two. */
  method MakeTail(rest: seq<Byte>, bits: nat) returns (blocks: seq<Byte>)
    requires |rest| < 64
    ensures blocks == rest + Tail(|rest|, bits)
  {
    var tail := new Byte[128](_ => 0);
    forall i | 0 <= i < |rest| { tail[i] := rest[i]; }
    tail[|rest|] := 0x80;
    var length := if |rest| < 56 then 64 else 128;
    var wrapped := bits % 0x1_0000_0000_0000_0000;
    var lengthBytes := BigEndianBytes(wrapped, 8);
    forall i | 0 <= i < 8 { tail[length - 8 + i] := lengthBytes[i]; }
    blocks := tail[..length];
  }

  /** A message's whole blocks, then its rest with a tail, are the message
      with its tail. */
  lemma ChainedRestAndTail<H>(step: (H, Block) -> H, hash: H, front: seq<Byte>, rest: seq<Byte>, tail: seq<Byte>)
    requires |front| % 64 == 0 && |rest| < 64
    ensures Chained(step, Chained(step, hash, front + rest), rest + tail) == Chained(step, hash, front + rest + tail)
  {
    ChainedInTwoParts(step, hash, front, rest);
    ChainedInTwoParts(step, hash, front, rest + tail);
    assert front + rest + tail == front + (rest + tail);
  }

  lemma MessageAndRest(bytes: seq<Byte>)
    ensures var whole := 64 * (|bytes| / 64);
            && whole % 64 == 0 && whole <= |bytes|
            && |bytes[whole..]| == |bytes| % 64
            && bytes[..whole] + bytes[whole..] == bytes
  {
  }

  lemma DigestIsTheStandards(bytes: seq<Byte>)
    requires |bytes| < 0x2000_0000_0000_0000
    ensures |Bits(bytes)| == 8 * |bytes|
    ensures HashedBytes(Start(), bytes + Tail(|bytes| % 64, 8 * |bytes|)) == Digest(Bits(bytes))
  {
    TailPadsTheMessage(bytes);
    HashedBytesAreHashedBits(Start(), bytes + Tail(|bytes| % 64, 8 * |bytes|));
  }

  /** The SHA-256 of `bytes`, as 64 lowercase hexadecimal characters. The
      length is counted in 64 bits, so for every message the standard gives a
      digest to, this is that digest. */
  method Sha256Hex(bytes: seq<Byte>) returns (text: string)
    ensures text == HexOf(HashedBytes(Start(), bytes + Tail(|bytes| % 64, 8 * |bytes|)))
    ensures |bytes| < 0x2000_0000_0000_0000 ==>
              && |Bits(bytes)| == 8 * |bytes|
              && text == HexOf(Digest(Bits(bytes)))
  {
    var state := new Word[8](i requires 0 <= i < 8 => START_ROW[i] as Word);
    assert state[..] == Start();
    CompressAll(state, bytes);
    var rest := bytes[64 * (|bytes| / 64)..];
    var blocks := MakeTail(rest, 8 * |bytes|);
    CompressAll(state, blocks);
    text := HexOf(state[..]);
    MessageAndRest(bytes);
    ChainedRestAndTail(CompressedBlock, Start(), bytes[..64 * (|bytes| / 64)], rest, Tail(|rest|, 8 * |bytes|));
    if |bytes| < 0x2000_0000_0000_0000 {
      DigestIsTheStandards(bytes);
    }
  }
}
