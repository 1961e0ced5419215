/** What the words' operations do to their bits: the code and the reference share
    them, and here they are held to section 3.2 of FIPS 180-4. */
module Sha256Bits {
  import opened Sha256Standard
  import opened Sha256

  function Double(w: Word): Word { w << 1 }

  function Or(v: Word, w: Word): Word { v | w }

  function And(v: Word, w: Word): Word { v & w }

  function Times<W>(f: W -> W, w: W, n: nat): W {
    if n == 0 then w else f(Times(f, w, n - 1))
  }

  // ----- Bits gathered into a word

  ghost predicate PushesOnto<W(!new)>(push: (W, bool) -> W, double: W -> W, or: (W, W) -> W) {
    forall d, w, x :: push(or(d, w), x) == or(double(d), push(w, x))
  }

  lemma WordsPushOnto()
    ensures PushesOnto(Push, Double, Or)
  {
  }

  lemma OnePush<W(!new)>(push: (W, bool) -> W, double: W -> W, or: (W, W) -> W, d: W, w: W, x: bool)
    requires PushesOnto(push, double, or)
    ensures push(or(d, w), x) == or(double(d), push(w, x))
  {
  }

  /** Bits gathered onto a word are that word, doubled once for each, with them. */
  lemma {:induction false} GatheredOnto<W(!new)>(
    push: (W, bool) -> W, double: W -> W, or: (W, W) -> W, zero: W, w: W, bits: seq<bool>)
    requires PushesOnto(push, double, or) && or(w, zero) == w
    ensures Gathered(push, w, bits) == or(Times(double, w, |bits|), Gathered(push, zero, bits))
  {
    if |bits| > 0 {
      var n := |bits| - 1;
      GatheredOnto(push, double, or, zero, w, bits[..n]);
      OnePush(push, double, or, Times(double, w, n), Gathered(push, zero, bits[..n]), bits[n]);
    }
  }

  ghost predicate KeepsClear<W(!new)>(push: (W, bool) -> W, double: W -> W, and: (W, W) -> W, zero: W) {
    forall d, w, x | and(w, d) == zero :: and(push(w, x), double(d)) == zero
  }

  lemma OnePushClear<W(!new)>(
    push: (W, bool) -> W, double: W -> W, and: (W, W) -> W, zero: W, d: W, w: W, x: bool)
    requires KeepsClear(push, double, and, zero) && and(w, d) == zero
    ensures and(push(w, x), double(d)) == zero
  {
  }

  lemma WordsKeepClear()
    ensures KeepsClear(Push, Double, And, 0)
  {
  }

  /** The bits above those gathered are clear. */
  lemma {:induction false} HighBitsAreClear<W(!new)>(
    push: (W, bool) -> W, double: W -> W, and: (W, W) -> W, zero: W, all: W, bits: seq<bool>)
    requires KeepsClear(push, double, and, zero) && and(zero, all) == zero
    ensures and(Gathered(push, zero, bits), Times(double, all, |bits|)) == zero
  {
    if |bits| > 0 {
      var n := |bits| - 1;
      HighBitsAreClear(push, double, and, zero, all, bits[..n]);
      OnePushClear(push, double, and, zero, Times(double, all, n), Gathered(push, zero, bits[..n]), bits[n]);
    }
  }

  lemma TimesFour<W>(f: W -> W, w: W, n: nat)
    ensures Times(f, w, n + 4) == f(f(f(f(Times(f, w, n)))))
  {
    assert Times(f, w, n + 4) == f(Times(f, w, n + 3));
    assert Times(f, w, n + 3) == f(Times(f, w, n + 2));
    assert Times(f, w, n + 2) == f(Times(f, w, n + 1));
  }

  lemma DoubleFour(w: Word)
    ensures Double(Double(Double(Double(w)))) == w << 4
  {
  }

  lemma DoubledFourMore(w: Word, n: nat, v: Word)
    requires Times(Double, w, n) == v
    ensures Times(Double, w, n + 4) == v << 4
  {
    TimesFour(Double, w, n);
    DoubleFour(v);
  }

  /** A bit doubled 31 times, and all of them. */
  lemma OneDoubled()
    ensures Times(Double, 1, 31) == 0x8000_0000
  {
    DoubledFourMore(1, 0, 1);
    DoubledFourMore(1, 4, 0x10);
    DoubledFourMore(1, 8, 0x100);
    DoubledFourMore(1, 12, 0x1000);
    DoubledFourMore(1, 16, 0x1_0000);
    DoubledFourMore(1, 20, 0x10_0000);
    DoubledFourMore(1, 24, 0x100_0000);
    assert Times(Double, 1, 29) == Double(0x1000_0000);
    assert Times(Double, 1, 30) == Double(0x2000_0000);
  }

  lemma AllDoubled()
    ensures Times(Double, 0xffff_ffff, 31) == 0x8000_0000
  {
    DoubledFourMore(0xffff_ffff, 0, 0xffff_ffff);
    DoubledFourMore(0xffff_ffff, 4, 0xffff_fff0);
    DoubledFourMore(0xffff_ffff, 8, 0xffff_ff00);
    DoubledFourMore(0xffff_ffff, 12, 0xffff_f000);
    DoubledFourMore(0xffff_ffff, 16, 0xffff_0000);
    DoubledFourMore(0xffff_ffff, 20, 0xfff0_0000);
    DoubledFourMore(0xffff_ffff, 24, 0xff00_0000);
    assert Times(Double, 0xffff_ffff, 29) == Double(0xf000_0000);
    assert Times(Double, 0xffff_ffff, 30) == Double(0xe000_0000);
  }

  lemma {:induction false} NothingDoubled(n: nat)
    ensures Times(Double, 0, n) == 0
  {
    if n > 0 {
      NothingDoubled(n - 1);
    }
  }

  /** A word's first bit, and the other 31 gathered. */
  lemma FirstBitAndRest(bits: seq<bool>)
    requires |bits| == 32
    ensures WordOf(bits) == Or(if bits[0] then 0x8000_0000 else 0, Gathered(Push, 0, bits[1..]))
  {
    var first: Word := if bits[0] then 1 else 0;
    assert Push(0, bits[0]) == first && Or(first, 0) == first;
    GatheredStep(Push, 0, bits);
    WordsPushOnto();
    GatheredOnto(Push, Double, Or, 0, first, bits[1..]);
    OneDoubled();
    NothingDoubled(31);
  }

  lemma TopBitIsClear(bits: seq<bool>)
    requires |bits| == 31
    ensures And(Gathered(Push, 0, bits), 0x8000_0000) == 0
  {
    WordsKeepClear();
    assert And(0, 0xffff_ffff) == 0;
    HighBitsAreClear(Push, Double, And, 0, 0xffff_ffff, bits);
    AllDoubled();
  }

  // ----- Rotations and shifts by one

  function TurnedRight(bits: seq<bool>, n: nat): seq<bool>
    requires n <= |bits|
  {
    bits[|bits| - n..] + bits[..|bits| - n]
  }

  function MovedRight(bits: seq<bool>, n: nat): seq<bool>
    requires n <= |bits|
  {
    Zeros(n) + bits[..|bits| - n]
  }

  function RotateOne(w: Word): Word { RotateRight(w, 1) }

  function ShiftOne(w: Word): Word { ShiftRight(w, 1) }

  lemma PushedShiftsBack(w: Word, x: bool)
    requires And(w, 0x8000_0000) == 0
    ensures ShiftOne(Push(w, x)) == w
  {
  }

  lemma OneBitTurns(w: Word)
    requires w & 0x8000_0000 == 0
    ensures RotateRight((w << 1) | 1, 1) == 0x8000_0000 | w
  {
  }

  lemma NoBitTurns(w: Word)
    requires w & 0x8000_0000 == 0
    ensures RotateRight(w << 1, 1) == w
  {
  }

  lemma Pushed(w: Word)
    ensures Push(w, true) == (w << 1) | 1 && Push(w, false) == w << 1
  {
  }

  lemma PushedRotatesBack(w: Word, x: bool)
    requires And(w, 0x8000_0000) == 0
    ensures RotateOne(Push(w, x)) == Or(if x then 0x8000_0000 else 0, w)
  {
    Pushed(w);
    if x {
      OneBitTurns(w);
    } else {
      NoBitTurns(w);
      OrZero(w);
    }
  }

  lemma OneTurn(bits: seq<bool>)
    requires |bits| == 32
    ensures RotateOne(WordOf(bits)) == WordOf(TurnedRight(bits, 1))
    ensures ShiftOne(WordOf(bits)) == WordOf(MovedRight(bits, 1))
  {
    TopBitIsClear(bits[..31]);
    PushedShiftsBack(Gathered(Push, 0, bits[..31]), bits[31]);
    PushedRotatesBack(Gathered(Push, 0, bits[..31]), bits[31]);
    assert TurnedRight(bits, 1)[1..] == bits[..31] && MovedRight(bits, 1)[1..] == bits[..31];
    FirstBitAndRest(TurnedRight(bits, 1));
    FirstBitAndRest(MovedRight(bits, 1));
    OrZero(Gathered(Push, 0, bits[..31]));
  }

  lemma OrZero(w: Word)
    ensures Or(0, w) == w
  {
  }

  lemma OneMoreTurn(bits: seq<bool>, n: nat)
    requires n < |bits|
    ensures TurnedRight(TurnedRight(bits, n), 1) == TurnedRight(bits, n + 1)
  {
    var turned := TurnedRight(bits, n);
    assert |turned| == |bits| && turned[|bits| - 1] == bits[|bits| - n - 1];
    forall i | 0 < i < |bits|
      ensures TurnedRight(turned, 1)[i] == TurnedRight(bits, n + 1)[i]
    {
      assert TurnedRight(turned, 1)[i] == turned[i - 1];
    }
  }

  lemma {:induction false} Turns(bits: seq<bool>, n: nat)
    requires |bits| == 32 && n <= 32
    ensures Times(RotateOne, WordOf(bits), n) == WordOf(TurnedRight(bits, n))
  {
    if n == 0 {
      assert TurnedRight(bits, 0) == bits;
    } else {
      Turns(bits, n - 1);
      OneTurn(TurnedRight(bits, n - 1));
      OneMoreTurn(bits, n - 1);
    }
  }

  lemma {:induction false} Moves(bits: seq<bool>, n: nat)
    requires |bits| == 32 && n <= 32
    ensures Times(ShiftOne, WordOf(bits), n) == WordOf(MovedRight(bits, n))
  {
    if n == 0 {
      assert MovedRight(bits, 0) == bits;
    } else {
      Moves(bits, n - 1);
      OneTurn(MovedRight(bits, n - 1));
      assert MovedRight(MovedRight(bits, n - 1), 1) == MovedRight(bits, n);
    }
  }

  // ----- By the amounts that are used

  lemma {:induction false} TimesInTwo<W>(f: W -> W, w: W, m: nat, n: nat)
    ensures Times(f, w, m + n) == Times(f, Times(f, w, m), n)
  {
    if n > 0 {
      TimesInTwo(f, w, m, n - 1);
    }
  }

  lemma Rotate1(w: Word)
    ensures RotateRight(w, 1) == Times(RotateOne, w, 1)
  {
    assert Times(RotateOne, w, 0) == w;
  }

  lemma Rotate2(w: Word)
    ensures RotateRight(w, 2) == Times(RotateOne, w, 2)
  {
    TimesInTwo(RotateOne, w, 1, 1);
    Rotate1(w);
    Rotate1(RotateRight(w, 1));
    Rotate1Then1(w);
  }

  lemma Rotate1Then1(w: Word) ensures RotateRight(RotateRight(w, 1), 1) == RotateRight(w, 2) { }

  lemma Rotate4(w: Word)
    ensures RotateRight(w, 4) == Times(RotateOne, w, 4)
  {
    TimesInTwo(RotateOne, w, 2, 2);
    Rotate2(w);
    Rotate2(RotateRight(w, 2));
    Rotate2Then2(w);
  }

  lemma Rotate2Then2(w: Word) ensures RotateRight(RotateRight(w, 2), 2) == RotateRight(w, 4) { }

  lemma Rotate6(w: Word)
    ensures RotateRight(w, 6) == Times(RotateOne, w, 6)
  {
    TimesInTwo(RotateOne, w, 4, 2);
    Rotate4(w);
    Rotate2(RotateRight(w, 4));
    Rotate4Then2(w);
  }

  lemma Rotate4Then2(w: Word) ensures RotateRight(RotateRight(w, 4), 2) == RotateRight(w, 6) { }

  lemma Rotate7(w: Word)
    ensures RotateRight(w, 7) == Times(RotateOne, w, 7)
  {
    TimesInTwo(RotateOne, w, 6, 1);
    Rotate6(w);
    Rotate1(RotateRight(w, 6));
    Rotate6Then1(w);
  }

  lemma Rotate6Then1(w: Word) ensures RotateRight(RotateRight(w, 6), 1) == RotateRight(w, 7) { }

  lemma Rotate11(w: Word)
    ensures RotateRight(w, 11) == Times(RotateOne, w, 11)
  {
    TimesInTwo(RotateOne, w, 7, 4);
    Rotate7(w);
    Rotate4(RotateRight(w, 7));
    Rotate7Then4(w);
  }

  lemma Rotate7Then4(w: Word) ensures RotateRight(RotateRight(w, 7), 4) == RotateRight(w, 11) { }

  lemma Rotate13(w: Word)
    ensures RotateRight(w, 13) == Times(RotateOne, w, 13)
  {
    TimesInTwo(RotateOne, w, 11, 2);
    Rotate11(w);
    Rotate2(RotateRight(w, 11));
    Rotate11Then2(w);
  }

  lemma Rotate11Then2(w: Word) ensures RotateRight(RotateRight(w, 11), 2) == RotateRight(w, 13) { }

  lemma Rotate17(w: Word)
    ensures RotateRight(w, 17) == Times(RotateOne, w, 17)
  {
    TimesInTwo(RotateOne, w, 13, 4);
    Rotate13(w);
    Rotate4(RotateRight(w, 13));
    Rotate13Then4(w);
  }

  lemma Rotate13Then4(w: Word) ensures RotateRight(RotateRight(w, 13), 4) == RotateRight(w, 17) { }

  lemma Rotate18(w: Word)
    ensures RotateRight(w, 18) == Times(RotateOne, w, 18)
  {
    TimesInTwo(RotateOne, w, 17, 1);
    Rotate17(w);
    Rotate1(RotateRight(w, 17));
    Rotate17Then1(w);
  }

  lemma Rotate17Then1(w: Word) ensures RotateRight(RotateRight(w, 17), 1) == RotateRight(w, 18) { }

  lemma Rotate19(w: Word)
    ensures RotateRight(w, 19) == Times(RotateOne, w, 19)
  {
    TimesInTwo(RotateOne, w, 18, 1);
    Rotate18(w);
    Rotate1(RotateRight(w, 18));
    Rotate18Then1(w);
  }

  lemma Rotate18Then1(w: Word) ensures RotateRight(RotateRight(w, 18), 1) == RotateRight(w, 19) { }

  lemma Rotate22(w: Word)
    ensures RotateRight(w, 22) == Times(RotateOne, w, 22)
  {
    TimesInTwo(RotateOne, w, 18, 4);
    Rotate18(w);
    Rotate4(RotateRight(w, 18));
    Rotate18Then4(w);
  }

  lemma Rotate18Then4(w: Word) ensures RotateRight(RotateRight(w, 18), 4) == RotateRight(w, 22) { }

  lemma Rotate25(w: Word)
    ensures RotateRight(w, 25) == Times(RotateOne, w, 25)
  {
    TimesInTwo(RotateOne, w, 18, 7);
    Rotate18(w);
    Rotate7(RotateRight(w, 18));
    Rotate18Then7(w);
  }

  lemma Rotate18Then7(w: Word) ensures RotateRight(RotateRight(w, 18), 7) == RotateRight(w, 25) { }

  lemma Shift1(w: Word)
    ensures ShiftRight(w, 1) == Times(ShiftOne, w, 1)
  {
    assert Times(ShiftOne, w, 0) == w;
  }

  lemma Shift2(w: Word)
    ensures ShiftRight(w, 2) == Times(ShiftOne, w, 2)
  {
    TimesInTwo(ShiftOne, w, 1, 1);
    Shift1(w);
    Shift1(ShiftRight(w, 1));
    Shift1Then1(w);
  }

  lemma Shift1Then1(w: Word) ensures ShiftRight(ShiftRight(w, 1), 1) == ShiftRight(w, 2) { }

  lemma Shift3(w: Word)
    ensures ShiftRight(w, 3) == Times(ShiftOne, w, 3)
  {
    TimesInTwo(ShiftOne, w, 2, 1);
    Shift2(w);
    Shift1(ShiftRight(w, 2));
    Shift2Then1(w);
  }

  lemma Shift2Then1(w: Word) ensures ShiftRight(ShiftRight(w, 2), 1) == ShiftRight(w, 3) { }

  lemma Shift4(w: Word)
    ensures ShiftRight(w, 4) == Times(ShiftOne, w, 4)
  {
    TimesInTwo(ShiftOne, w, 2, 2);
    Shift2(w);
    Shift2(ShiftRight(w, 2));
    Shift2Then2(w);
  }

  lemma Shift2Then2(w: Word) ensures ShiftRight(ShiftRight(w, 2), 2) == ShiftRight(w, 4) { }

  lemma Shift8(w: Word)
    ensures ShiftRight(w, 8) == Times(ShiftOne, w, 8)
  {
    TimesInTwo(ShiftOne, w, 4, 4);
    Shift4(w);
    Shift4(ShiftRight(w, 4));
    Shift4Then4(w);
  }

  lemma Shift4Then4(w: Word) ensures ShiftRight(ShiftRight(w, 4), 4) == ShiftRight(w, 8) { }

  lemma Shift10(w: Word)
    ensures ShiftRight(w, 10) == Times(ShiftOne, w, 10)
  {
    TimesInTwo(ShiftOne, w, 8, 2);
    Shift8(w);
    Shift2(ShiftRight(w, 8));
    Shift8Then2(w);
  }

  lemma Shift8Then2(w: Word) ensures ShiftRight(ShiftRight(w, 8), 2) == ShiftRight(w, 10) { }

  lemma Shift12(w: Word)
    ensures ShiftRight(w, 12) == Times(ShiftOne, w, 12)
  {
    TimesInTwo(ShiftOne, w, 8, 4);
    Shift8(w);
    Shift4(ShiftRight(w, 8));
    Shift8Then4(w);
  }

  lemma Shift8Then4(w: Word) ensures ShiftRight(ShiftRight(w, 8), 4) == ShiftRight(w, 12) { }

  lemma Shift16(w: Word)
    ensures ShiftRight(w, 16) == Times(ShiftOne, w, 16)
  {
    TimesInTwo(ShiftOne, w, 12, 4);
    Shift12(w);
    Shift4(ShiftRight(w, 12));
    Shift12Then4(w);
  }

  lemma Shift12Then4(w: Word) ensures ShiftRight(ShiftRight(w, 12), 4) == ShiftRight(w, 16) { }

  lemma Shift20(w: Word)
    ensures ShiftRight(w, 20) == Times(ShiftOne, w, 20)
  {
    TimesInTwo(ShiftOne, w, 16, 4);
    Shift16(w);
    Shift4(ShiftRight(w, 16));
    Shift16Then4(w);
  }

  lemma Shift16Then4(w: Word) ensures ShiftRight(ShiftRight(w, 16), 4) == ShiftRight(w, 20) { }

  lemma Shift24(w: Word)
    ensures ShiftRight(w, 24) == Times(ShiftOne, w, 24)
  {
    TimesInTwo(ShiftOne, w, 20, 4);
    Shift20(w);
    Shift4(ShiftRight(w, 20));
    Shift20Then4(w);
  }

  lemma Shift20Then4(w: Word) ensures ShiftRight(ShiftRight(w, 20), 4) == ShiftRight(w, 24) { }

  lemma Shift28(w: Word)
    ensures ShiftRight(w, 28) == Times(ShiftOne, w, 28)
  {
    TimesInTwo(ShiftOne, w, 24, 4);
    Shift24(w);
    Shift4(ShiftRight(w, 24));
    Shift24Then4(w);
  }

  lemma Shift24Then4(w: Word) ensures ShiftRight(ShiftRight(w, 24), 4) == ShiftRight(w, 28) { }

  /** Section 3.2: each rotation of the sigmas takes the last bits of a word to its
      front, and leaves the others in order. */
  lemma RotationsTurnTheBits(bits: seq<bool>)
    requires |bits| == 32
    ensures RotateRight(WordOf(bits), 2) == WordOf(TurnedRight(bits, 2))
    ensures RotateRight(WordOf(bits), 6) == WordOf(TurnedRight(bits, 6))
    ensures RotateRight(WordOf(bits), 7) == WordOf(TurnedRight(bits, 7))
    ensures RotateRight(WordOf(bits), 11) == WordOf(TurnedRight(bits, 11))
    ensures RotateRight(WordOf(bits), 13) == WordOf(TurnedRight(bits, 13))
    ensures RotateRight(WordOf(bits), 17) == WordOf(TurnedRight(bits, 17))
    ensures RotateRight(WordOf(bits), 18) == WordOf(TurnedRight(bits, 18))
    ensures RotateRight(WordOf(bits), 19) == WordOf(TurnedRight(bits, 19))
    ensures RotateRight(WordOf(bits), 22) == WordOf(TurnedRight(bits, 22))
    ensures RotateRight(WordOf(bits), 25) == WordOf(TurnedRight(bits, 25))
  {
    var w := WordOf(bits);
    Rotate2(w);
    Turns(bits, 2);
    Rotate6(w);
    Turns(bits, 6);
    Rotate7(w);
    Turns(bits, 7);
    Rotate11(w);
    Turns(bits, 11);
    Rotate13(w);
    Turns(bits, 13);
    Rotate17(w);
    Turns(bits, 17);
    Rotate18(w);
    Turns(bits, 18);
    Rotate19(w);
    Turns(bits, 19);
    Rotate22(w);
    Turns(bits, 22);
    Rotate25(w);
    Turns(bits, 25);
  }

  /** And the two shifts of the small sigmas drop the last bits, and put zeros in
      front. */
  lemma ShiftsMoveTheBits(bits: seq<bool>)
    requires |bits| == 32
    ensures ShiftRight(WordOf(bits), 3) == WordOf(MovedRight(bits, 3))
    ensures ShiftRight(WordOf(bits), 10) == WordOf(MovedRight(bits, 10))
  {
    Shift3(WordOf(bits));
    Moves(bits, 3);
    Shift10(WordOf(bits));
    Moves(bits, 10);
  }

  // ----- Addition

  function Majority(x: bool, y: bool, c: bool): bool { (x && y) || (x && c) || (y && c) }

  function Odd(x: bool, y: bool, c: bool): bool { (x != y) != c }

  /** Two strings of bits and a carry, added from their last bits on; the last carry
      is dropped. */
  function Sum(a: seq<bool>, b: seq<bool>, c: bool): (sum: seq<bool>)
    requires |a| == |b|
    ensures |sum| == |a|
  {
    if |a| == 0 then []
    else
      var n := |a| - 1;
      Sum(a[..n], b[..n], Majority(a[n], b[n], c)) + [Odd(a[n], b[n], c)]
  }

  lemma PushedOne(w: Word)
    ensures Push(w, true) == (w << 1) | 1
  {
  }

  lemma PushedZero(w: Word)
    ensures Push(w, false) == w << 1
  {
  }

  lemma TwiceAndOne(w: Word)
    ensures (w << 1) | 1 == w + w + 1
  {
  }

  lemma Twice(w: Word)
    ensures w << 1 == w + w
  {
  }

  lemma PushIsTwice(w: Word)
    ensures Push(w, true) == w + w + 1 && Push(w, false) == w + w
  {
    Pushed(w);
    TwiceAndOne(w);
    Twice(w);
  }

  lemma Same111(v: Word, w: Word, one: Word)
    requires one == 1
    ensures (v + v + 1) + (w + w + 1) + one == (v + w + one) + (v + w + one) + 1
  {
  }

  lemma Adds111(v: Word, w: Word, one: Word)
    requires one == 1
    ensures Plus(Plus(Push(v, true), Push(w, true)), one) == Push(Plus(Plus(v, w), one), true)
  {
    Same111(v, w, one);
    PushIsTwice(v);
    PushIsTwice(w);
    PushIsTwice(Plus(Plus(v, w), one));
  }

  lemma Same110(v: Word, w: Word, one: Word)
    requires one == 1
    ensures (v + v + 1) + (w + w + 1) == (v + w + one) + (v + w + one)
  {
  }

  lemma Adds110(v: Word, w: Word, one: Word)
    requires one == 1
    ensures Plus(Push(v, true), Push(w, true)) == Push(Plus(Plus(v, w), one), false)
  {
    Same110(v, w, one);
    PushIsTwice(v);
    PushIsTwice(w);
    PushIsTwice(Plus(Plus(v, w), one));
  }

  lemma Same101(v: Word, w: Word, one: Word)
    requires one == 1
    ensures (v + v + 1) + (w + w) + one == (v + w + one) + (v + w + one)
  {
  }

  lemma Adds101(v: Word, w: Word, one: Word)
    requires one == 1
    ensures Plus(Plus(Push(v, true), Push(w, false)), one) == Push(Plus(Plus(v, w), one), false)
  {
    Same101(v, w, one);
    PushIsTwice(v);
    PushIsTwice(w);
    PushIsTwice(Plus(Plus(v, w), one));
  }

  lemma Same100(v: Word, w: Word)
    ensures ((v << 1) | 1) + (w << 1) == ((v + w) << 1) | 1
  {
  }

  lemma Adds100(v: Word, w: Word)
    ensures Plus(Push(v, true), Push(w, false)) == Push(Plus(v, w), true)
  {
    Same100(v, w);
    PushedOne(v);
    PushedZero(w);
    PushedOne(Plus(v, w));
    Parts100(v, w, Push(v, true), Push(w, false), Push(Plus(v, w), true));
  }

  lemma Parts100(v: Word, w: Word, a: Word, b: Word, sum: Word)
    requires a == ((v << 1) | 1) && b == (w << 1) && sum == (((v + w) << 1) | 1)
    requires ((v << 1) | 1) + (w << 1) == (((v + w) << 1) | 1)
    ensures Plus(a, b) == sum
  {
  }

  lemma Same011(v: Word, w: Word, one: Word)
    requires one == 1
    ensures (v + v) + (w + w + 1) + one == (v + w + one) + (v + w + one)
  {
  }

  lemma Adds011(v: Word, w: Word, one: Word)
    requires one == 1
    ensures Plus(Plus(Push(v, false), Push(w, true)), one) == Push(Plus(Plus(v, w), one), false)
  {
    Same011(v, w, one);
    PushIsTwice(v);
    PushIsTwice(w);
    PushIsTwice(Plus(Plus(v, w), one));
  }

  lemma Same010(v: Word, w: Word)
    ensures (v << 1) + ((w << 1) | 1) == ((v + w) << 1) | 1
  {
  }

  lemma Adds010(v: Word, w: Word)
    ensures Plus(Push(v, false), Push(w, true)) == Push(Plus(v, w), true)
  {
    Same010(v, w);
    PushedZero(v);
    PushedOne(w);
    PushedOne(Plus(v, w));
    Parts010(v, w, Push(v, false), Push(w, true), Push(Plus(v, w), true));
  }

  lemma Parts010(v: Word, w: Word, a: Word, b: Word, sum: Word)
    requires a == (v << 1) && b == ((w << 1) | 1) && sum == (((v + w) << 1) | 1)
    requires (v << 1) + ((w << 1) | 1) == (((v + w) << 1) | 1)
    ensures Plus(a, b) == sum
  {
  }

  lemma Same001(v: Word, w: Word, one: Word)
    requires one == 1
    ensures (v << 1) + (w << 1) + one == ((v + w) << 1) | 1
  {
  }

  lemma Adds001(v: Word, w: Word, one: Word)
    requires one == 1
    ensures Plus(Plus(Push(v, false), Push(w, false)), one) == Push(Plus(v, w), true)
  {
    Same001(v, w, one);
    Pushed(v);
    Pushed(w);
    Pushed(Plus(v, w));
  }

  lemma Same000(v: Word, w: Word)
    ensures (v << 1) + (w << 1) == ((v + w) << 1)
  {
  }

  lemma Adds000(v: Word, w: Word)
    ensures Plus(Push(v, false), Push(w, false)) == Push(Plus(v, w), false)
  {
    Same000(v, w);
    PushedZero(v);
    PushedZero(w);
    PushedZero(Plus(v, w));
    Parts000(v, w, Push(v, false), Push(w, false), Push(Plus(v, w), false));
  }

  lemma Parts000(v: Word, w: Word, a: Word, b: Word, sum: Word)
    requires a == (v << 1) && b == (w << 1) && sum == ((v + w) << 1)
    requires (v << 1) + (w << 1) == ((v + w) << 1)
    ensures Plus(a, b) == sum
  {
  }

  function Carried<W>(plus: (W, W) -> W, one: W, w: W, c: bool): W { if c then plus(w, one) else w }

  ghost predicate AddsPushed<W(!new)>(push: (W, bool) -> W, plus: (W, W) -> W, one: W, v: W, w: W) {
    && plus(plus(push(v, true), push(w, true)), one) == push(plus(plus(v, w), one), true)
    && plus(push(v, true), push(w, true)) == push(plus(plus(v, w), one), false)
    && plus(plus(push(v, true), push(w, false)), one) == push(plus(plus(v, w), one), false)
    && plus(push(v, true), push(w, false)) == push(plus(v, w), true)
    && plus(plus(push(v, false), push(w, true)), one) == push(plus(plus(v, w), one), false)
    && plus(push(v, false), push(w, true)) == push(plus(v, w), true)
    && plus(plus(push(v, false), push(w, false)), one) == push(plus(v, w), true)
    && plus(push(v, false), push(w, false)) == push(plus(v, w), false)
  }

  ghost predicate AddsAllPushed<W(!new)>(push: (W, bool) -> W, plus: (W, W) -> W, one: W) {
    forall v: W, w: W :: AddsPushed(push, plus, one, v, w)
  }

  lemma WordsAddPushed(one: Word)
    requires one == 1
    ensures AddsAllPushed(Push, Plus, one)
  {
    forall v: Word, w: Word
      ensures AddsPushed(Push, Plus, one, v, w)
    {
      Adds111(v, w, one);
      Adds110(v, w, one);
      Adds101(v, w, one);
      Adds100(v, w);
      Adds011(v, w, one);
      Adds010(v, w);
      Adds001(v, w, one);
      Adds000(v, w);
    }
  }

  lemma OneAddition<W(!new)>(
    push: (W, bool) -> W, plus: (W, W) -> W, one: W, v: W, w: W, x: bool, y: bool, c: bool)
    requires AddsPushed(push, plus, one, v, w)
    ensures Carried(plus, one, plus(push(v, x), push(w, y)), c)
            == push(Carried(plus, one, plus(v, w), Majority(x, y, c)), Odd(x, y, c))
  {
  }

  /** The carry that is left. */
  function CarryOut(a: seq<bool>, b: seq<bool>, c: bool): bool
    requires |a| == |b|
  {
    if |a| == 0 then c
    else
      var n := |a| - 1;
      CarryOut(a[..n], b[..n], Majority(a[n], b[n], c))
  }

  lemma GatheredOneMore<W>(push: (W, bool) -> W, w: W, bits: seq<bool>, x: bool)
    ensures Gathered(push, w, bits + [x]) == push(Gathered(push, w, bits), x)
  {
    assert (bits + [x])[..|bits|] == bits;
  }

  lemma {:induction false} SumIsAdded<W(!new)>(
    push: (W, bool) -> W, plus: (W, W) -> W, one: W, zero: W, a: seq<bool>, b: seq<bool>, c: bool)
    requires AddsAllPushed(push, plus, one) && |a| == |b|
    requires plus(zero, zero) == zero && plus(zero, one) == one
    ensures Carried(plus, one, plus(Gathered(push, zero, a), Gathered(push, zero, b)), c)
            == Gathered(push, if CarryOut(a, b, c) then one else zero, Sum(a, b, c))
  {
    if |a| > 0 {
      var n := |a| - 1;
      var v, w := Gathered(push, zero, a[..n]), Gathered(push, zero, b[..n]);
      var more, odd := Majority(a[n], b[n], c), Odd(a[n], b[n], c);
      SumIsAdded(push, plus, one, zero, a[..n], b[..n], more);
      assert AddsPushed(push, plus, one, v, w);
      OneAddition(push, plus, one, v, w, a[n], b[n], c);
      GatheredOneMore(push, if CarryOut(a, b, c) then one else zero, Sum(a[..n], b[..n], more), odd);
    }
  }

  lemma OneDoubledAway()
    ensures Times(Double, 1, 32) == 0
  {
    OneDoubled();
    assert Double(0x8000_0000) == 0;
  }

  lemma CarryIsDropped(bits: seq<bool>)
    requires |bits| == 32
    ensures Gathered(Push, 1, bits) == WordOf(bits)
  {
    WordsPushOnto();
    assert Or(1, 0) == 1;
    GatheredOnto(Push, Double, Or, 0, 1, bits);
    OneDoubledAway();
    OrZero(WordOf(bits));
  }

  lemma ZeroAdds(one: Word)
    ensures Plus(0, 0) == 0 && Plus(0, one) == one
  {
  }

  /** Section 3.2: the operation of addition adds the bits with their carries, and
      drops the last. */
  lemma PlusAddsTheBits(a: seq<bool>, b: seq<bool>)
    requires |a| == |b| == 32
    ensures Plus(WordOf(a), WordOf(b)) == WordOf(Sum(a, b, false))
  {
    PlusAddsWith(1, a, b);
    CarryIsDropped(Sum(a, b, false));
  }

  lemma PlusAddsWith(one: Word, a: seq<bool>, b: seq<bool>)
    requires one == 1 && |a| == |b| == 32
    ensures Plus(WordOf(a), WordOf(b)) == Gathered(Push, if CarryOut(a, b, false) then one else 0, Sum(a, b, false))
  {
    WordsAddPushed(one);
    ZeroAdds(one);
    SumIsAdded(Push, Plus, one, 0, a, b, false);
  }

  lemma HalvesAdd(m: nat, n: nat, c: bool)
    ensures var x, y, sum := m % 2 == 1, n % 2 == 1, WithCarry(m, n, c);
            && sum / 2 == WithCarry(m / 2, n / 2, Majority(x, y, c))
            && (sum % 2 == 1) == Odd(x, y, c)
  {
  }

  lemma SumOneMore(a: seq<bool>, b: seq<bool>, x: bool, y: bool, c: bool)
    requires |a| == |b|
    ensures Sum(a + [x], b + [y], c) == Sum(a, b, Majority(x, y, c)) + [Odd(x, y, c)]
  {
    assert (a + [x])[..|a|] == a && (b + [y])[..|a|] == b;
  }

  function WithCarry(m: nat, n: nat, c: bool): nat { m + n + if c then 1 else 0 }

  lemma {:induction false} SumOfBinary(m: nat, n: nat, width: nat, c: bool)
    ensures Sum(Binary(m, width), Binary(n, width), c) == Binary(WithCarry(m, n, c), width)
  {
    if width > 0 {
      var x, y := m % 2 == 1, n % 2 == 1;
      BinaryStep(m, width - 1);
      BinaryStep(n, width - 1);
      BinaryStep(WithCarry(m, n, c), width - 1);
      SumOneMore(Binary(m / 2, width - 1), Binary(n / 2, width - 1), x, y, c);
      SumOfBinary(m / 2, n / 2, width - 1, Majority(x, y, c));
      HalvesAdd(m, n, c);
    }
  }

  /** What a multiple of 2^width adds is not seen in the last `width` bits. */
  lemma {:induction false} BinaryDropsTheRest(n: nat, width: nat, q: nat, rest: nat)
    requires n == PowerOfTwo(width) * q + rest
    ensures Binary(n, width) == Binary(rest, width)
  {
    if width > 0 {
      var p := PowerOfTwo(width - 1);
      TwiceAProduct(p, q);
      HalfOf(n, p * q, rest);
      BinaryDropsTheRest(n / 2, width - 1, q, rest / 2);
      BinaryStep(n, width - 1);
      BinaryStep(rest, width - 1);
    }
  }

  lemma TwiceAProduct(p: nat, q: nat)
    ensures (2 * p) * q == 2 * (p * q)
  {
  }

  lemma HalfOf(n: nat, t: nat, rest: nat)
    requires n == 2 * t + rest
    ensures n / 2 == t + rest / 2 && n % 2 == rest % 2
  {
  }

  lemma Divided(n: nat, d: nat, rest: nat) returns (q: nat)
    requires d > 0 && rest == n % d
    ensures n == d * q + rest
  {
    q := n / d;
  }

  /** On values: the words of two numbers add to the word of their sum modulo 2^32. */
  lemma PlusIsModulo(m: nat, n: nat)
    ensures Plus(WordOf(Binary(m, 32)), WordOf(Binary(n, 32))) == WordOf(Binary((m + n) % PowerOfTwo(32), 32))
  {
    PlusAddsTheBits(Binary(m, 32), Binary(n, 32));
    SumOfBinary(m, n, 32, false);
    RestInBinary(m + n, 32, PowerOfTwo(32), (m + n) % PowerOfTwo(32));
  }

  lemma RestInBinary(n: nat, width: nat, p: nat, rest: nat)
    requires p == PowerOfTwo(width) && rest == n % p
    ensures Binary(n, width) == Binary(rest, width)
  {
    var q := Divided(n, p, rest);
    BinaryDropsTheRest(n, width, q, rest);
  }

  // ----- Hexadecimal

  const HEX_DIGITS: string := "0123456789abcdef"

  function Bit(x: bool): nat { if x then 1 else 0 }

  /** Four bits as a number. */
  function Value(bits: seq<bool>): (n: nat)
    requires |bits| == 4
    ensures n < 16
  {
    8 * Bit(bits[0]) + 4 * Bit(bits[1]) + 2 * Bit(bits[2]) + Bit(bits[3])
  }

  function Pushed4(w: Word, a: bool, b: bool, c: bool, d: bool): Word { Push(Push(Push(Push(w, a), b), c), d) }

  lemma LowFourStay(w: Word, a: bool, b: bool, c: bool, d: bool)
    ensures And(Pushed4(w, a, b, c, d), 15) == Pushed4(0, a, b, c, d)
  {
  }

  lemma LastFourBits(bits: seq<bool>)
    requires |bits| == 32
    ensures And(WordOf(bits), 15) == Gathered(Push, 0, bits[28..])
  {
    var last := bits[28..];
    assert bits[..28] + last == bits;
    GatheredConcat(Push, 0, bits[..28], last);
    GatheredFour(Push, Gathered(Push, 0, bits[..28]), last);
    GatheredFour(Push, 0, last);
    LowFourStay(Gathered(Push, 0, bits[..28]), last[0], last[1], last[2], last[3]);
  }

  lemma HexDigitIs(a: bool, b: bool, c: bool, d: bool)
    ensures HexDigit(Pushed4(0, a, b, c, d)) == HEX_DIGITS[Value([a, b, c, d])]
  {
  }

  lemma DigitOfLastFour(bits: seq<bool>)
    requires |bits| == 32
    ensures HexDigit(And(WordOf(bits), 15)) == HEX_DIGITS[Value(bits[28..])]
  {
    var last := bits[28..];
    LastFourBits(bits);
    GatheredFour(Push, 0, last);
    HexDigitIs(last[0], last[1], last[2], last[3]);
    assert last == [last[0], last[1], last[2], last[3]];
  }

  lemma MovedLastFour(bits: seq<bool>, n: nat)
    requires |bits| == 32 && n <= 28
    ensures MovedRight(bits, n)[28..] == bits[28 - n..32 - n]
  {
  }

  lemma DigitOfMoved(bits: seq<bool>, n: nat, moved: Word)
    requires |bits| == 32 && n <= 28 && moved == Times(ShiftOne, WordOf(bits), n)
    ensures HexDigit(And(moved, 15)) == HEX_DIGITS[Value(bits[28 - n..32 - n])]
  {
    Moves(bits, n);
    DigitOfLastFour(MovedRight(bits, n));
    MovedLastFour(bits, n);
  }

  lemma Nibble28(w: Word)
    ensures Nibble(w, 28) == And(ShiftRight(w, 28), 15)
  {
  }

  lemma DigitAt0(digit: Word -> char, w: Word, nibble: Word)
    requires Nibble(w, 28) == nibble
    ensures Digits(digit, w)[0] == digit(nibble)
  {
  }

  lemma Digit0(w: Word)
    ensures HexOfWord(w)[0] == HexDigit(And(ShiftRight(w, 28), 15))
  {
    Nibble28(w);
    DigitAt0(HexDigit, w, And(ShiftRight(w, 28), 15));
  }

  lemma MovedBy28(w: Word) returns (n: nat, moved: Word)
    ensures n == 28 && moved == ShiftRight(w, 28) && moved == Times(ShiftOne, w, n)
  {
    n, moved := 28, ShiftRight(w, 28);
    Shift28(w);
  }

  lemma Reads0(bits: seq<bool>)
    requires |bits| == 32
    ensures HexOfWord(WordOf(bits))[0] == HEX_DIGITS[Value(bits[0..4])]
  {
    var w := WordOf(bits);
    Digit0(w);
    var n, moved := MovedBy28(w);
    DigitOfMoved(bits, n, moved);
  }

  lemma Nibble24(w: Word)
    ensures Nibble(w, 24) == And(ShiftRight(w, 24), 15)
  {
  }

  lemma DigitAt1(digit: Word -> char, w: Word, nibble: Word)
    requires Nibble(w, 24) == nibble
    ensures Digits(digit, w)[1] == digit(nibble)
  {
  }

  lemma Digit1(w: Word)
    ensures HexOfWord(w)[1] == HexDigit(And(ShiftRight(w, 24), 15))
  {
    Nibble24(w);
    DigitAt1(HexDigit, w, And(ShiftRight(w, 24), 15));
  }

  lemma MovedBy24(w: Word) returns (n: nat, moved: Word)
    ensures n == 24 && moved == ShiftRight(w, 24) && moved == Times(ShiftOne, w, n)
  {
    n, moved := 24, ShiftRight(w, 24);
    Shift24(w);
  }

  lemma Reads1(bits: seq<bool>)
    requires |bits| == 32
    ensures HexOfWord(WordOf(bits))[1] == HEX_DIGITS[Value(bits[4..8])]
  {
    var w := WordOf(bits);
    Digit1(w);
    var n, moved := MovedBy24(w);
    DigitOfMoved(bits, n, moved);
  }

  lemma Nibble20(w: Word)
    ensures Nibble(w, 20) == And(ShiftRight(w, 20), 15)
  {
  }

  lemma DigitAt2(digit: Word -> char, w: Word, nibble: Word)
    requires Nibble(w, 20) == nibble
    ensures Digits(digit, w)[2] == digit(nibble)
  {
  }

  lemma Digit2(w: Word)
    ensures HexOfWord(w)[2] == HexDigit(And(ShiftRight(w, 20), 15))
  {
    Nibble20(w);
    DigitAt2(HexDigit, w, And(ShiftRight(w, 20), 15));
  }

  lemma MovedBy20(w: Word) returns (n: nat, moved: Word)
    ensures n == 20 && moved == ShiftRight(w, 20) && moved == Times(ShiftOne, w, n)
  {
    n, moved := 20, ShiftRight(w, 20);
    Shift20(w);
  }

  lemma Reads2(bits: seq<bool>)
    requires |bits| == 32
    ensures HexOfWord(WordOf(bits))[2] == HEX_DIGITS[Value(bits[8..12])]
  {
    var w := WordOf(bits);
    Digit2(w);
    var n, moved := MovedBy20(w);
    DigitOfMoved(bits, n, moved);
  }

  lemma Nibble16(w: Word)
    ensures Nibble(w, 16) == And(ShiftRight(w, 16), 15)
  {
  }

  lemma DigitAt3(digit: Word -> char, w: Word, nibble: Word)
    requires Nibble(w, 16) == nibble
    ensures Digits(digit, w)[3] == digit(nibble)
  {
  }

  lemma Digit3(w: Word)
    ensures HexOfWord(w)[3] == HexDigit(And(ShiftRight(w, 16), 15))
  {
    Nibble16(w);
    DigitAt3(HexDigit, w, And(ShiftRight(w, 16), 15));
  }

  lemma MovedBy16(w: Word) returns (n: nat, moved: Word)
    ensures n == 16 && moved == ShiftRight(w, 16) && moved == Times(ShiftOne, w, n)
  {
    n, moved := 16, ShiftRight(w, 16);
    Shift16(w);
  }

  lemma Reads3(bits: seq<bool>)
    requires |bits| == 32
    ensures HexOfWord(WordOf(bits))[3] == HEX_DIGITS[Value(bits[12..16])]
  {
    var w := WordOf(bits);
    Digit3(w);
    var n, moved := MovedBy16(w);
    DigitOfMoved(bits, n, moved);
  }

  lemma Nibble12(w: Word)
    ensures Nibble(w, 12) == And(ShiftRight(w, 12), 15)
  {
  }

  lemma DigitAt4(digit: Word -> char, w: Word, nibble: Word)
    requires Nibble(w, 12) == nibble
    ensures Digits(digit, w)[4] == digit(nibble)
  {
  }

  lemma Digit4(w: Word)
    ensures HexOfWord(w)[4] == HexDigit(And(ShiftRight(w, 12), 15))
  {
    Nibble12(w);
    DigitAt4(HexDigit, w, And(ShiftRight(w, 12), 15));
  }

  lemma MovedBy12(w: Word) returns (n: nat, moved: Word)
    ensures n == 12 && moved == ShiftRight(w, 12) && moved == Times(ShiftOne, w, n)
  {
    n, moved := 12, ShiftRight(w, 12);
    Shift12(w);
  }

  lemma Reads4(bits: seq<bool>)
    requires |bits| == 32
    ensures HexOfWord(WordOf(bits))[4] == HEX_DIGITS[Value(bits[16..20])]
  {
    var w := WordOf(bits);
    Digit4(w);
    var n, moved := MovedBy12(w);
    DigitOfMoved(bits, n, moved);
  }

  lemma Nibble8(w: Word)
    ensures Nibble(w, 8) == And(ShiftRight(w, 8), 15)
  {
  }

  lemma DigitAt5(digit: Word -> char, w: Word, nibble: Word)
    requires Nibble(w, 8) == nibble
    ensures Digits(digit, w)[5] == digit(nibble)
  {
  }

  lemma Digit5(w: Word)
    ensures HexOfWord(w)[5] == HexDigit(And(ShiftRight(w, 8), 15))
  {
    Nibble8(w);
    DigitAt5(HexDigit, w, And(ShiftRight(w, 8), 15));
  }

  lemma MovedBy8(w: Word) returns (n: nat, moved: Word)
    ensures n == 8 && moved == ShiftRight(w, 8) && moved == Times(ShiftOne, w, n)
  {
    n, moved := 8, ShiftRight(w, 8);
    Shift8(w);
  }

  lemma Reads5(bits: seq<bool>)
    requires |bits| == 32
    ensures HexOfWord(WordOf(bits))[5] == HEX_DIGITS[Value(bits[20..24])]
  {
    var w := WordOf(bits);
    Digit5(w);
    var n, moved := MovedBy8(w);
    DigitOfMoved(bits, n, moved);
  }

  lemma Nibble4(w: Word)
    ensures Nibble(w, 4) == And(ShiftRight(w, 4), 15)
  {
  }

  lemma DigitAt6(digit: Word -> char, w: Word, nibble: Word)
    requires Nibble(w, 4) == nibble
    ensures Digits(digit, w)[6] == digit(nibble)
  {
  }

  lemma Digit6(w: Word)
    ensures HexOfWord(w)[6] == HexDigit(And(ShiftRight(w, 4), 15))
  {
    Nibble4(w);
    DigitAt6(HexDigit, w, And(ShiftRight(w, 4), 15));
  }

  lemma MovedBy4(w: Word) returns (n: nat, moved: Word)
    ensures n == 4 && moved == ShiftRight(w, 4) && moved == Times(ShiftOne, w, n)
  {
    n, moved := 4, ShiftRight(w, 4);
    Shift4(w);
  }

  lemma Reads6(bits: seq<bool>)
    requires |bits| == 32
    ensures HexOfWord(WordOf(bits))[6] == HEX_DIGITS[Value(bits[24..28])]
  {
    var w := WordOf(bits);
    Digit6(w);
    var n, moved := MovedBy4(w);
    DigitOfMoved(bits, n, moved);
  }

  lemma Nibble0(w: Word)
    ensures Nibble(w, 0) == And(w, 15)
  {
  }

  lemma DigitAt7(digit: Word -> char, w: Word, nibble: Word)
    requires Nibble(w, 0) == nibble
    ensures Digits(digit, w)[7] == digit(nibble)
  {
  }

  lemma Digit7(w: Word)
    ensures HexOfWord(w)[7] == HexDigit(And(w, 15))
  {
    Nibble0(w);
    DigitAt7(HexDigit, w, And(w, 15));
  }

  lemma Reads7(bits: seq<bool>)
    requires |bits| == 32
    ensures HexOfWord(WordOf(bits))[7] == HEX_DIGITS[Value(bits[28..32])]
  {
    var w := WordOf(bits);
    Digit7(w);
    DigitOfMoved(bits, 0, w);
  }

  /** Each character of a word's text is the digit of its four bits, from the first
      on. */
  lemma HexReadsTheBits(bits: seq<bool>, i: nat)
    requires |bits| == 32 && i < 8
    ensures HexOfWord(WordOf(bits))[i] == HEX_DIGITS[Value(bits[4 * i..4 * i + 4])]
  {
    match i
    case 0 => Reads0(bits);
    case 1 => Reads1(bits);
    case 2 => Reads2(bits);
    case 3 => Reads3(bits);
    case 4 => Reads4(bits);
    case 5 => Reads5(bits);
    case 6 => Reads6(bits);
    case _ => Reads7(bits);
  }
}
