/** SHA-256 as FIPS 180-4 defines it, over strings of bits: the reference the
    helper's own implementation (module Sha256) is proved equal to. */
module Sha256Standard {
  type Word = bv32
  type Hash = h: seq<Word> | |h| == 8 witness [0, 0, 0, 0, 0, 0, 0, 0]
  newtype Constant = x: int | 0 <= x < 0x1_0000_0000

  /** Section 4.2.2: the constants, in rows of eight. */
  const K_ROWS: seq<seq<Constant>> := [
    [0x428a2f98, 0x71374491, 0xb5c0fbcf, 0xe9b5dba5, 0x3956c25b, 0x59f111f1, 0x923f82a4, 0xab1c5ed5],
    [0xd807aa98, 0x12835b01, 0x243185be, 0x550c7dc3, 0x72be5d74, 0x80deb1fe, 0x9bdc06a7, 0xc19bf174],
    [0xe49b69c1, 0xefbe4786, 0x0fc19dc6, 0x240ca1cc, 0x2de92c6f, 0x4a7484aa, 0x5cb0a9dc, 0x76f988da],
    [0x983e5152, 0xa831c66d, 0xb00327c8, 0xbf597fc7, 0xc6e00bf3, 0xd5a79147, 0x06ca6351, 0x14292967],
    [0x27b70a85, 0x2e1b2138, 0x4d2c6dfc, 0x53380d13, 0x650a7354, 0x766a0abb, 0x81c2c92e, 0x92722c85],
    [0xa2bfe8a1, 0xa81a664b, 0xc24b8b70, 0xc76c51a3, 0xd192e819, 0xd6990624, 0xf40e3585, 0x106aa070],
    [0x19a4c116, 0x1e376c08, 0x2748774c, 0x34b0bcb5, 0x391c0cb3, 0x4ed8aa4a, 0x5b9cca4f, 0x682e6ff3],
    [0x748f82ee, 0x78a5636f, 0x84c87814, 0x8cc70208, 0x90befffa, 0xa4506ceb, 0xbef9a3f7, 0xc67178f2]
  ]

  function K(t: nat): Word
    requires t < 64
  {
    K_ROWS[t / 8][t % 8] as Word
  }

  /** Section 5.3.3: the first hash value. */
  const START_ROW: seq<Constant> := [
    0x6a09e667, 0xbb67ae85, 0x3c6ef372, 0xa54ff53a, 0x510e527f, 0x9b05688c, 0x1f83d9ab, 0x5be0cd19
  ]

  function Start(): Hash {
    seq(8, i requires 0 <= i < 8 => START_ROW[i] as Word)
  }

  /** Section 3.2: addition modulo 2^32. */
  function Plus(x: Word, y: Word): Word { x + y }

  function ShiftRight(x: Word, n: Word): Word
    requires n <= 32
  {
    x >> n
  }

  function RotateRight(x: Word, n: Word): Word
    requires n <= 32
  {
    (x >> n) | (x << (32 - n))
  }

  // Section 4.1.2: the functions.

  function Ch(x: Word, y: Word, z: Word): Word { (x & y) ^ (!x & z) }

  function Maj(x: Word, y: Word, z: Word): Word { (x & y) ^ (x & z) ^ (y & z) }

  function BigSigma0(x: Word): Word { RotateRight(x, 2) ^ RotateRight(x, 13) ^ RotateRight(x, 22) }

  function BigSigma1(x: Word): Word { RotateRight(x, 6) ^ RotateRight(x, 11) ^ RotateRight(x, 25) }

  function SmallSigma0(x: Word): Word { RotateRight(x, 7) ^ RotateRight(x, 18) ^ ShiftRight(x, 3) }

  function SmallSigma1(x: Word): Word { RotateRight(x, 17) ^ RotateRight(x, 19) ^ ShiftRight(x, 10) }

  /** Section 6.2.2, step 1: the message schedule, word by word from the
      block's sixteen. */
  function Schedule(w: seq<Word>): (words: seq<Word>)
    requires 16 <= |w| <= 64
    ensures |words| == 64
    decreases 64 - |w|
  {
    if |w| == 64 then w else Schedule(w + [NextWord(w)])
  }

  function NextWord(w: seq<Word>): Word
    requires 16 <= |w|
  {
    var t := |w|;
    Plus(SmallSigma1(w[t - 2]), Plus(w[t - 7], Plus(SmallSigma0(w[t - 15]), w[t - 16])))
  }

  datatype Working = Working(a: Word, b: Word, c: Word, d: Word, e: Word, f: Word, g: Word, h: Word)

  /** Section 6.2.2, step 3: one round on the working variables. */
  function Round(v: Working, k: Word, w: Word): Working {
    var t1 := Plus(Plus(Plus(Plus(v.h, BigSigma1(v.e)), Ch(v.e, v.f, v.g)), k), w);
    var t2 := Plus(BigSigma0(v.a), Maj(v.a, v.b, v.c));
    Working(Plus(t1, t2), v.a, v.b, v.c, Plus(v.d, t1), v.e, v.f, v.g)
  }

  /** A round for each word of the schedule `w`. */
  function Rounds(v: Working, w: seq<Word>): Working
    requires |w| <= 64
  {
    if |w| == 0 then v else Round(Rounds(v, w[..|w| - 1]), K(|w| - 1), w[|w| - 1])
  }

  function Unpacked(hash: Hash): Working {
    Working(hash[0], hash[1], hash[2], hash[3], hash[4], hash[5], hash[6], hash[7])
  }

  function Packed(v: Working): Hash { [v.a, v.b, v.c, v.d, v.e, v.f, v.g, v.h] }

  /** Section 6.2.2, step 4: each working variable into its word of the hash. */
  function Added(hash: Hash, v: seq<Word>): Hash
    requires |v| == 8
  {
    seq(8, i requires 0 <= i < 8 => Plus(hash[i], v[i]))
  }

  /** Section 6.2.2: the hash value after one block. */
  function Compressed(hash: Hash, block: seq<Word>): Hash
    requires |block| == 16
  {
    Added(hash, Packed(Rounds(Unpacked(hash), Schedule(block))))
  }

  function PowerOfTwo(n: nat): (p: nat)
    ensures p > 0
  {
    if n == 0 then 1 else 2 * PowerOfTwo(n - 1)
  }

  /** `n` in binary, in `width` bits, the most significant first. */
  function Binary(n: nat, width: nat): (bits: seq<bool>)
    ensures |bits| == width
  {
    seq(width, i requires 0 <= i < width => n / PowerOfTwo(width - 1 - i) % 2 == 1)
  }

  function Zeros(k: nat): (bits: seq<bool>)
    ensures |bits| == k
  {
    seq(k, _ => false)
  }

  /** Section 5.1.1: how many zeros follow the one bit. */
  function ZeroCount(length: nat): nat { (447 - length) % 512 }

  /** Section 5.1.1: the padded message. The standard gives it for messages
      shorter than 2^64 bits. */
  function Padded(message: seq<bool>): seq<bool>
    requires |message| < 0x1_0000_0000_0000_0000
  {
    message + [true] + Zeros(ZeroCount(|message|)) + Binary(|message|, 64)
  }

  /** Bits one after another into `w`, by `push`. */
  function Gathered<W>(push: (W, bool) -> W, w: W, bits: seq<bool>): W {
    if |bits| == 0 then w
    else push(Gathered(push, w, bits[..|bits| - 1]), bits[|bits| - 1])
  }

  function Push(w: Word, bit: bool): Word { (w << 1) | (if bit then 1 else 0) }

  /** Section 3.1: 32 bits as a word, the most significant first. */
  function WordOf(bits: seq<bool>): Word
    requires |bits| == 32
  {
    Gathered(Push, 0, bits)
  }

  /** Section 5.2.1: a block of 512 bits as sixteen words. */
  function Parsed(bits: seq<bool>): (words: seq<Word>)
    requires |bits| == 512
    ensures |words| == 16
  {
    seq(16, i requires 0 <= i < 16 => WordOf(bits[32 * i..32 * i + 32]))
  }

  /** Section 6.2.2: every whole block of `bits`, in order, into `hash`. */
  function Hashed(hash: Hash, bits: seq<bool>): Hash
    decreases |bits|
  {
    if |bits| < 512 then hash else Hashed(Compressed(hash, Parsed(bits[..512])), bits[512..])
  }

  /** The 256-bit message digest, as eight words. */
  function Digest(message: seq<bool>): Hash
    requires |message| < 0x1_0000_0000_0000_0000
  {
    Hashed(Start(), Padded(message))
  }

  predicate LeavesRoomForLength(length: nat, k: nat) { (length + 1 + k) % 512 == 448 }

  /** Section 5.1.1 asks for the smallest count of zeros that leaves 64 bits of
      the last block for the length, so the padded message is whole blocks. */
  lemma ZeroCountIsSmallest(length: nat)
    ensures LeavesRoomForLength(length, ZeroCount(length))
    ensures forall k: nat | LeavesRoomForLength(length, k) :: ZeroCount(length) <= k
  {
    forall k: nat | LeavesRoomForLength(length, k)
      ensures ZeroCount(length) <= k
    {
      assert (447 - length) % 512 == k % 512;
    }
  }

  /** The first 64 primes: K is made from all of them, START from the first 8. */
  const PRIME_ROWS: seq<seq<nat>> := [
    [2, 3, 5, 7, 11, 13, 17, 19],
    [23, 29, 31, 37, 41, 43, 47, 53],
    [59, 61, 67, 71, 73, 79, 83, 89],
    [97, 101, 103, 107, 109, 113, 127, 131],
    [137, 139, 149, 151, 157, 163, 167, 173],
    [179, 181, 191, 193, 197, 199, 211, 223],
    [227, 229, 233, 239, 241, 251, 257, 263],
    [269, 271, 277, 281, 283, 293, 307, 311]
  ]

  predicate Divides(d: nat, n: nat)
    requires d > 0
  {
    n % d == 0
  }

  predicate IsPrime(n: nat) { n >= 2 && forall d: nat | 2 <= d < n :: !Divides(d, n) }

  predicate Passes(n: nat, p: nat)
    requires p > 0
  {
    n == p || n % p != 0
  }

  /** Neither 2, 3, 5, 7, 11, 13 nor 17 divides the number, but for itself. */
  predicate IsSieved(n: nat) {
    && n >= 2
    && Passes(n, 2) && Passes(n, 3) && Passes(n, 5) && Passes(n, 7) && Passes(n, 11) && Passes(n, 13) && Passes(n, 17)
  }

  lemma DividesThrough(q: nat, x: nat, n: nat)
    requires q > 0 && x > 0 && x % q == 0 && n % x == 0
    ensures n % q == 0
  {
    var a, b := x / q, n / x;
    assert n == q * (a * b) by {
      assert n == x * b && x == q * a;
    }
    MultipleLeavesNothing(q, a * b);
  }

  lemma MultipleLeavesNothing(q: nat, k: nat)
    requires q > 0
    ensures (q * k) % q == 0
  {
    var quotient, rest := (q * k) / q, (q * k) % q;
    var m := k - quotient;
    assert q * m == rest && q * m == -(q * (-m));
    if m > 0 {
      MultipleIsFarAway(q, m);
    } else if m < 0 {
      MultipleIsFarAway(q, -m);
    }
  }

  lemma MultipleIsFarAway(q: nat, m: nat)
    requires m > 0
    ensures q * m >= q
  {
    assert q * m == q + q * (m - 1);
  }

  /** A divisor up to 17 has one of the seven primes in it. */
  lemma SmallDivisorIsSieved(x: nat, n: nat)
    requires 2 <= x <= 17 && x < n && n % x == 0
    ensures !IsSieved(n)
  {
    var q: nat := if x % 2 == 0 then 2 else if x % 3 == 0 then 3 else x;
    if q != x {
      DividesThrough(q, x, n);
    } else if x != 2 && x != 3 {
      assert x == 5 || x == 7 || x == 11 || x == 13 || x == 17;
    }
  }

  lemma OneFactorIsSmall(d: nat, e: nat)
    requires d >= 18 && e >= 18
    ensures d * e >= 324
  {
    assert d * e == 18 * e + (d - 18) * e && (d - 18) * e >= 0;
  }

  lemma PrimesPass(n: nat, p: nat)
    requires IsPrime(n) && 2 <= p
    ensures Passes(n, p)
  {
    assert p < n ==> !Divides(p, n);
  }

  lemma CompositesDoNot(n: nat, d: nat)
    requires n < 324 && 2 <= d < n && Divides(d, n)
    ensures !IsSieved(n)
  {
    var e := n / d;
    assert n == d * e;
    FactorIsBetween(n, d, e);
    if d <= 17 {
      SmallDivisorIsSieved(d, n);
    } else {
      if e >= 18 {
        OneFactorIsSmall(d, e);
      }
      MultipleLeavesNothing(e, d);
      SmallDivisorIsSieved(e, n);
    }
  }

  lemma FactorIsBetween(n: nat, d: nat, e: nat)
    requires n == d * e && 2 <= d < n
    ensures 2 <= e < n && n == e * d
  {
    if e >= 2 {
      assert d * e == 2 * e + (d - 2) * e;
    }
  }

  /** Below the square of 18 that sieve leaves exactly the primes. */
  lemma SievedIffPrime(n: nat)
    requires n < 324
    ensures IsSieved(n) <==> IsPrime(n)
  {
    if IsPrime(n) {
      PrimesPass(n, 2); PrimesPass(n, 3); PrimesPass(n, 5); PrimesPass(n, 7);
      PrimesPass(n, 11); PrimesPass(n, 13); PrimesPass(n, 17);
    } else if n >= 2 {
      var d: nat :| 2 <= d < n && Divides(d, n);
      CompositesDoNot(n, d);
    }
  }

  /** The first number of each row, and of the one after the last. */
  const ROW_STARTS: seq<nat> := [0, 23, 59, 97, 137, 179, 227, 269, 312]

  // What the sieve leaves of each ten numbers

  lemma Sieve0(n: nat)
    requires 0 <= n < 10
    ensures IsSieved(n) <==> n == 2 || n == 3 || n == 5 || n == 7
  {
  }

  lemma Sieve10(n: nat)
    requires 10 <= n < 20
    ensures IsSieved(n) <==> n == 11 || n == 13 || n == 17 || n == 19
  {
  }

  lemma Sieve20(n: nat)
    requires 20 <= n < 30
    ensures IsSieved(n) <==> n == 23 || n == 29
  {
  }

  lemma Sieve30(n: nat)
    requires 30 <= n < 40
    ensures IsSieved(n) <==> n == 31 || n == 37
  {
  }

  lemma Sieve40(n: nat)
    requires 40 <= n < 50
    ensures IsSieved(n) <==> n == 41 || n == 43 || n == 47
  {
  }

  lemma Sieve50(n: nat)
    requires 50 <= n < 60
    ensures IsSieved(n) <==> n == 53 || n == 59
  {
  }

  lemma Sieve60(n: nat)
    requires 60 <= n < 70
    ensures IsSieved(n) <==> n == 61 || n == 67
  {
  }

  lemma Sieve70(n: nat)
    requires 70 <= n < 80
    ensures IsSieved(n) <==> n == 71 || n == 73 || n == 79
  {
  }

  lemma Sieve80(n: nat)
    requires 80 <= n < 90
    ensures IsSieved(n) <==> n == 83 || n == 89
  {
  }

  lemma Sieve90(n: nat)
    requires 90 <= n < 100
    ensures IsSieved(n) <==> n == 97
  {
  }

  lemma Sieve100(n: nat)
    requires 100 <= n < 110
    ensures IsSieved(n) <==> n == 101 || n == 103 || n == 107 || n == 109
  {
  }

  lemma Sieve110(n: nat)
    requires 110 <= n < 120
    ensures IsSieved(n) <==> n == 113
  {
  }

  lemma Sieve120(n: nat)
    requires 120 <= n < 130
    ensures IsSieved(n) <==> n == 127
  {
  }

  lemma Sieve130(n: nat)
    requires 130 <= n < 140
    ensures IsSieved(n) <==> n == 131 || n == 137 || n == 139
  {
  }

  lemma Sieve140(n: nat)
    requires 140 <= n < 150
    ensures IsSieved(n) <==> n == 149
  {
  }

  lemma Sieve150(n: nat)
    requires 150 <= n < 160
    ensures IsSieved(n) <==> n == 151 || n == 157
  {
  }

  lemma Sieve160(n: nat)
    requires 160 <= n < 170
    ensures IsSieved(n) <==> n == 163 || n == 167
  {
  }

  lemma Sieve170(n: nat)
    requires 170 <= n < 180
    ensures IsSieved(n) <==> n == 173 || n == 179
  {
  }

  lemma Sieve180(n: nat)
    requires 180 <= n < 190
    ensures IsSieved(n) <==> n == 181
  {
  }

  lemma Sieve190(n: nat)
    requires 190 <= n < 200
    ensures IsSieved(n) <==> n == 191 || n == 193 || n == 197 || n == 199
  {
  }

  lemma Sieve200(n: nat)
    requires 200 <= n < 210
    ensures !IsSieved(n)
  {
  }

  lemma Sieve210(n: nat)
    requires 210 <= n < 220
    ensures IsSieved(n) <==> n == 211
  {
  }

  lemma Sieve220(n: nat)
    requires 220 <= n < 230
    ensures IsSieved(n) <==> n == 223 || n == 227 || n == 229
  {
  }

  lemma Sieve230(n: nat)
    requires 230 <= n < 240
    ensures IsSieved(n) <==> n == 233 || n == 239
  {
  }

  lemma Sieve240(n: nat)
    requires 240 <= n < 250
    ensures IsSieved(n) <==> n == 241
  {
  }

  lemma Sieve250(n: nat)
    requires 250 <= n < 260
    ensures IsSieved(n) <==> n == 251 || n == 257
  {
  }

  lemma Sieve260(n: nat)
    requires 260 <= n < 270
    ensures IsSieved(n) <==> n == 263 || n == 269
  {
  }

  lemma Sieve270(n: nat)
    requires 270 <= n < 280
    ensures IsSieved(n) <==> n == 271 || n == 277
  {
  }

  lemma Sieve280(n: nat)
    requires 280 <= n < 290
    ensures IsSieved(n) <==> n == 281 || n == 283
  {
  }

  lemma Sieve290(n: nat)
    requires 290 <= n < 300
    ensures IsSieved(n) <==> n == 293
  {
  }

  lemma Sieve300(n: nat)
    requires 300 <= n < 310
    ensures IsSieved(n) <==> n == 307
  {
  }

  lemma Sieve310(n: nat)
    requires 310 <= n < 312
    ensures IsSieved(n) <==> n == 311
  {
  }

  lemma SieveRow0(n: nat)
    requires 0 <= n < 23
    ensures IsSieved(n) <==> n in PRIME_ROWS[0]
  {
    if n < 10 {
      Sieve0(n);
    } else if n < 20 {
      Sieve10(n);
    } else {
      Sieve20(n);
    }
  }

  lemma SieveRow1(n: nat)
    requires 23 <= n < 59
    ensures IsSieved(n) <==> n in PRIME_ROWS[1]
  {
    if n < 30 {
      Sieve20(n);
    } else if n < 40 {
      Sieve30(n);
    } else if n < 50 {
      Sieve40(n);
    } else {
      Sieve50(n);
    }
  }

  lemma SieveRow2(n: nat)
    requires 59 <= n < 97
    ensures IsSieved(n) <==> n in PRIME_ROWS[2]
  {
    if n < 60 {
      Sieve50(n);
    } else if n < 70 {
      Sieve60(n);
    } else if n < 80 {
      Sieve70(n);
    } else if n < 90 {
      Sieve80(n);
    } else {
      Sieve90(n);
    }
  }

  lemma SieveRow3(n: nat)
    requires 97 <= n < 137
    ensures IsSieved(n) <==> n in PRIME_ROWS[3]
  {
    if n < 100 {
      Sieve90(n);
    } else if n < 110 {
      Sieve100(n);
    } else if n < 120 {
      Sieve110(n);
    } else if n < 130 {
      Sieve120(n);
    } else {
      Sieve130(n);
    }
  }

  lemma SieveRow4(n: nat)
    requires 137 <= n < 179
    ensures IsSieved(n) <==> n in PRIME_ROWS[4]
  {
    if n < 140 {
      Sieve130(n);
    } else if n < 150 {
      Sieve140(n);
    } else if n < 160 {
      Sieve150(n);
    } else if n < 170 {
      Sieve160(n);
    } else {
      Sieve170(n);
    }
  }

  lemma SieveRow5(n: nat)
    requires 179 <= n < 227
    ensures IsSieved(n) <==> n in PRIME_ROWS[5]
  {
    if n < 180 {
      Sieve170(n);
    } else if n < 190 {
      Sieve180(n);
    } else if n < 200 {
      Sieve190(n);
    } else if n < 210 {
      Sieve200(n);
    } else if n < 220 {
      Sieve210(n);
    } else {
      Sieve220(n);
    }
  }

  lemma SieveRow6(n: nat)
    requires 227 <= n < 269
    ensures IsSieved(n) <==> n in PRIME_ROWS[6]
  {
    if n < 230 {
      Sieve220(n);
    } else if n < 240 {
      Sieve230(n);
    } else if n < 250 {
      Sieve240(n);
    } else if n < 260 {
      Sieve250(n);
    } else {
      Sieve260(n);
    }
  }

  lemma SieveRow7(n: nat)
    requires 269 <= n < 312
    ensures IsSieved(n) <==> n in PRIME_ROWS[7]
  {
    if n < 270 {
      Sieve260(n);
    } else if n < 280 {
      Sieve270(n);
    } else if n < 290 {
      Sieve280(n);
    } else if n < 300 {
      Sieve290(n);
    } else if n < 310 {
      Sieve300(n);
    } else {
      Sieve310(n);
    }
  }

  lemma SieveRow(row: nat, n: nat)
    requires row < 8 && ROW_STARTS[row] <= n < ROW_STARTS[row + 1]
    ensures IsSieved(n) <==> n in PRIME_ROWS[row]
  {
    match row
    case 0 => SieveRow0(n);
    case 1 => SieveRow1(n);
    case 2 => SieveRow2(n);
    case 3 => SieveRow3(n);
    case 4 => SieveRow4(n);
    case 5 => SieveRow5(n);
    case 6 => SieveRow6(n);
    case _ => SieveRow7(n);
  }

  /** The rows are the first 64 primes: row by row, in order, every prime below 312
      and nothing else, eight in each. */
  lemma RowsAreThePrimes(row: nat, n: nat)
    requires row < 8
    ensures n in PRIME_ROWS[row] <==> ROW_STARTS[row] <= n < ROW_STARTS[row + 1] && IsPrime(n)
  {
    if ROW_STARTS[row] <= n < ROW_STARTS[row + 1] {
      SievedIffPrime(n);
      SieveRow(row, n);
    } else {
      RowsAreInTheirRange(row, n);
    }
  }

  lemma RowsAreInTheirRange(row: nat, n: nat)
    requires row < 8
    ensures n in PRIME_ROWS[row] ==> ROW_STARTS[row] <= n < ROW_STARTS[row + 1]
  {
  }

  lemma EveryRowIsInOrder(row: nat, i: nat, j: nat)
    requires row < 8 && i < j < 8
    ensures PRIME_ROWS[row][i] < PRIME_ROWS[row][j]
  {
  }

  const TWO_TO_THE_32: nat := 0x1_0000_0000

  /** With the whole part `root` before it, `k` is the first 32 bits of the
      fractional part of the cube root of `p`. */
  predicate IsCubeRootFraction(k: Constant, p: nat, root: nat) {
    var scaled := root * TWO_TO_THE_32 + k as nat;
    scaled * scaled * scaled <= p * TWO_TO_THE_32 * TWO_TO_THE_32 * TWO_TO_THE_32 &&
    p * TWO_TO_THE_32 * TWO_TO_THE_32 * TWO_TO_THE_32 < (scaled + 1) * (scaled + 1) * (scaled + 1)
  }

  predicate IsSquareRootFraction(k: Constant, p: nat, root: nat) {
    var scaled := root * TWO_TO_THE_32 + k as nat;
    scaled * scaled <= p * TWO_TO_THE_32 * TWO_TO_THE_32 < (scaled + 1) * (scaled + 1)
  }

  /** The whole part of the cube root of `p`, for `p` below 343. */
  function CubeRoot(p: nat): nat {
    if p < 8 then 1 else if p < 27 then 2 else if p < 64 then 3 else if p < 125 then 4
    else if p < 216 then 5 else 6
  }

  predicate AreFractions(k: seq<Constant>, p: seq<nat>, i: nat)
    requires |k| == |p| == 8 && i <= 4
  {
    && IsCubeRootFraction(k[i], p[i], CubeRoot(p[i]))
    && IsCubeRootFraction(k[i + 1], p[i + 1], CubeRoot(p[i + 1]))
    && IsCubeRootFraction(k[i + 2], p[i + 2], CubeRoot(p[i + 2]))
    && IsCubeRootFraction(k[i + 3], p[i + 3], CubeRoot(p[i + 3]))
  }

  predicate IsRowOfFractions(k: seq<Constant>, p: seq<nat>)
    requires |k| == |p| == 8
  {
    AreFractions(k, p, 0) && AreFractions(k, p, 4)
  }

  /** Every constant is what section 4.2.2 says it is: the table holds no
      digit that is not its prime's. */
  lemma KAreCubeRootFractions(row: nat)
    requires row < 8
    ensures IsRowOfFractions(K_ROWS[row], PRIME_ROWS[row])
  {
    match row
    case 0 => KRow0();
    case 1 => KRow1();
    case 2 => KRow2();
    case 3 => KRow3();
    case 4 => KRow4();
    case 5 => KRow5();
    case 6 => KRow6();
    case _ => KRow7();
  }

  lemma KRow0()
    ensures IsRowOfFractions(K_ROWS[0], PRIME_ROWS[0])
  {
    FirstOfKRow0();
    LastOfKRow0();
  }

  lemma FirstOfKRow0() ensures AreFractions(K_ROWS[0], PRIME_ROWS[0], 0) { }

  lemma LastOfKRow0() ensures AreFractions(K_ROWS[0], PRIME_ROWS[0], 4) { }

  lemma KRow1()
    ensures IsRowOfFractions(K_ROWS[1], PRIME_ROWS[1])
  {
    FirstOfKRow1();
    LastOfKRow1();
  }

  lemma FirstOfKRow1() ensures AreFractions(K_ROWS[1], PRIME_ROWS[1], 0) { }

  lemma LastOfKRow1() ensures AreFractions(K_ROWS[1], PRIME_ROWS[1], 4) { }

  lemma KRow2()
    ensures IsRowOfFractions(K_ROWS[2], PRIME_ROWS[2])
  {
    FirstOfKRow2();
    LastOfKRow2();
  }

  lemma FirstOfKRow2() ensures AreFractions(K_ROWS[2], PRIME_ROWS[2], 0) { }

  lemma LastOfKRow2() ensures AreFractions(K_ROWS[2], PRIME_ROWS[2], 4) { }

  lemma KRow3()
    ensures IsRowOfFractions(K_ROWS[3], PRIME_ROWS[3])
  {
    FirstOfKRow3();
    LastOfKRow3();
  }

  lemma FirstOfKRow3() ensures AreFractions(K_ROWS[3], PRIME_ROWS[3], 0) { }

  lemma LastOfKRow3() ensures AreFractions(K_ROWS[3], PRIME_ROWS[3], 4) { }

  lemma KRow4()
    ensures IsRowOfFractions(K_ROWS[4], PRIME_ROWS[4])
  {
    FirstOfKRow4();
    LastOfKRow4();
  }

  lemma FirstOfKRow4() ensures AreFractions(K_ROWS[4], PRIME_ROWS[4], 0) { }

  lemma LastOfKRow4() ensures AreFractions(K_ROWS[4], PRIME_ROWS[4], 4) { }

  lemma KRow5()
    ensures IsRowOfFractions(K_ROWS[5], PRIME_ROWS[5])
  {
    FirstOfKRow5();
    LastOfKRow5();
  }

  lemma FirstOfKRow5() ensures AreFractions(K_ROWS[5], PRIME_ROWS[5], 0) { }

  lemma LastOfKRow5() ensures AreFractions(K_ROWS[5], PRIME_ROWS[5], 4) { }

  lemma KRow6()
    ensures IsRowOfFractions(K_ROWS[6], PRIME_ROWS[6])
  {
    FirstOfKRow6();
    LastOfKRow6();
  }

  lemma FirstOfKRow6() ensures AreFractions(K_ROWS[6], PRIME_ROWS[6], 0) { }

  lemma LastOfKRow6() ensures AreFractions(K_ROWS[6], PRIME_ROWS[6], 4) { }

  lemma KRow7()
    ensures IsRowOfFractions(K_ROWS[7], PRIME_ROWS[7])
  {
    FirstOfKRow7();
    LastOfKRow7();
  }

  lemma FirstOfKRow7() ensures AreFractions(K_ROWS[7], PRIME_ROWS[7], 0) { }

  lemma LastOfKRow7() ensures AreFractions(K_ROWS[7], PRIME_ROWS[7], 4) { }

  /** Section 5.3.3, likewise. */
  lemma StartAreSquareRootFractions()
    ensures && IsSquareRootFraction(START_ROW[0], 2, 1) && IsSquareRootFraction(START_ROW[1], 3, 1)
            && IsSquareRootFraction(START_ROW[2], 5, 2) && IsSquareRootFraction(START_ROW[3], 7, 2)
            && IsSquareRootFraction(START_ROW[4], 11, 3) && IsSquareRootFraction(START_ROW[5], 13, 3)
            && IsSquareRootFraction(START_ROW[6], 17, 4) && IsSquareRootFraction(START_ROW[7], 19, 4)
  {
  }
}
