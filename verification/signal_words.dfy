// Signals as the 16-bit word of the program, and as a set of signal numbers.
module SignalWords {
  type Word = bv16

  // 1 << n
  function Mask(n: nat): Word
    requires n < 16
  {
    if n == 0 then 1 else Mask(n - 1) << 1
  }

  // w & m as a condition.
  predicate Test(w: Word, m: Word) { w & m != 0 }

  predicate HasBit(w: Word, n: nat)
    requires n < 16
  {
    Test(w, Mask(n))
  }

  // The signal numbers in a word.
  function Bits(w: Word): set<nat> {
    set n: nat | n < 16 && HasBit(w, n)
  }

  lemma MaskValues()
    ensures Mask(0) == 0x0001 && Mask(1) == 0x0002 && Mask(2) == 0x0004 && Mask(3) == 0x0008
    ensures Mask(4) == 0x0010 && Mask(5) == 0x0020 && Mask(6) == 0x0040 && Mask(7) == 0x0080
    ensures Mask(8) == 0x0100 && Mask(9) == 0x0200 && Mask(10) == 0x0400 && Mask(11) == 0x0800
    ensures Mask(12) == 0x1000 && Mask(13) == 0x2000 && Mask(14) == 0x4000 && Mask(15) == 0x8000
  {
    assert Mask(3) == 0x0008;
    assert Mask(6) == 0x0040;
    assert Mask(9) == 0x0200;
    assert Mask(12) == 0x1000;
  }

  // A word without any of the bits is zero.
  lemma {:induction false} NoBitsIsZero(w: Word)
    requires forall n: nat :: n < 16 ==> !HasBit(w, n)
    ensures w == 0
  {
    MaskValues();
    assert !HasBit(w, 0) && !HasBit(w, 1) && !HasBit(w, 2) && !HasBit(w, 3);
    assert !HasBit(w, 4) && !HasBit(w, 5) && !HasBit(w, 6) && !HasBit(w, 7);
    assert !HasBit(w, 8) && !HasBit(w, 9) && !HasBit(w, 10) && !HasBit(w, 11);
    assert !HasBit(w, 12) && !HasBit(w, 13) && !HasBit(w, 14) && !HasBit(w, 15);
  }

  lemma OrBitRaw(a: Word, b: Word, m: Word)
    ensures (a | b) & m != 0 <==> a & m != 0 || b & m != 0
  {}

  lemma OrBit(a: Word, b: Word, m: Word)
    ensures Test(a | b, m) <==> Test(a, m) || Test(b, m)
  {
    OrBitRaw(a, b, m);
  }

  // Exactly one bit set.
  predicate Single(m: Word) {
    m != 0 && m & (m - 1) == 0
  }

  lemma {:induction false} MaskIsSingle(n: nat)
    requires n < 16
    ensures Single(Mask(n))
  {
    MaskValues();
  }

  lemma AllOrNothing(a: Word, m: Word)
    requires Single(m)
    ensures a & m == 0 || a & m == m
  {}

  lemma AndBitRaw(a: Word, b: Word, m: Word)
    requires m != 0 && (a & m == 0 || a & m == m) && (b & m == 0 || b & m == m)
    ensures (a & b) & m != 0 <==> a & m != 0 && b & m != 0
  {}

  lemma AndBit(a: Word, b: Word, m: Word)
    requires Single(m)
    ensures Test(a & b, m) <==> Test(a, m) && Test(b, m)
  {
    AllOrNothing(a, m);
    AllOrNothing(b, m);
    AndBitRaw(a, b, m);
  }

  lemma AndNotBitRaw(a: Word, b: Word, m: Word)
    requires m != 0 && (a & m == 0 || a & m == m) && (b & m == 0 || b & m == m)
    ensures (a & !b) & m != 0 <==> a & m != 0 && b & m == 0
  {}

  lemma AndNotBit(a: Word, b: Word, m: Word)
    requires Single(m)
    ensures Test(a & !b, m) <==> Test(a, m) && !Test(b, m)
  {
    AllOrNothing(a, m);
    AllOrNothing(b, m);
    AndNotBitRaw(a, b, m);
  }

  lemma {:induction false} OrHas(a: Word, b: Word, n: nat)
    requires n < 16
    ensures HasBit(a | b, n) <==> HasBit(a, n) || HasBit(b, n)
  {
    OrBit(a, b, Mask(n));
  }

  lemma {:induction false} AndHas(a: Word, b: Word, n: nat)
    requires n < 16
    ensures HasBit(a & b, n) <==> HasBit(a, n) && HasBit(b, n)
  {
    MaskIsSingle(n);
    AndBit(a, b, Mask(n));
  }

  lemma {:induction false} AndNotHas(a: Word, b: Word, n: nat)
    requires n < 16
    ensures HasBit(a & !b, n) <==> HasBit(a, n) && !HasBit(b, n)
  {
    MaskIsSingle(n);
    AndNotBit(a, b, Mask(n));
  }

  lemma SameMembers(s: set<nat>, t: set<nat>)
    requires forall n: nat :: n in s <==> n in t
    ensures s == t
  {}

  // The word operations of the kernel are the set operations.
  lemma {:induction false} OrIsUnion(a: Word, b: Word)
    ensures Bits(a | b) == Bits(a) + Bits(b)
  {
    forall n: nat ensures n in Bits(a | b) <==> n in Bits(a) + Bits(b) {
      if n < 16 { OrHas(a, b, n); }
    }
    SameMembers(Bits(a | b), Bits(a) + Bits(b));
  }

  lemma {:induction false} AndIsIntersection(a: Word, b: Word)
    ensures Bits(a & b) == Bits(a) * Bits(b)
  {
    forall n: nat ensures n in Bits(a & b) <==> n in Bits(a) * Bits(b) {
      if n < 16 { AndHas(a, b, n); }
    }
    SameMembers(Bits(a & b), Bits(a) * Bits(b));
  }

  lemma {:induction false} AndNotIsDifference(a: Word, b: Word)
    ensures Bits(a & !b) == Bits(a) - Bits(b)
  {
    forall n: nat ensures n in Bits(a & !b) <==> n in Bits(a) - Bits(b) {
      if n < 16 { AndNotHas(a, b, n); }
    }
    SameMembers(Bits(a & !b), Bits(a) - Bits(b));
  }

  lemma {:induction false} ZeroIsEmpty(w: Word)
    ensures w == 0 <==> Bits(w) == {}
  {
    if Bits(w) == {} {
      forall n: nat | n < 16 ensures !HasBit(w, n) {
        assert n !in Bits(w);
      }
      NoBitsIsZero(w);
    }
  }

  lemma {:induction false} MaskIsSingleton(n: nat)
    requires n < 16
    ensures Bits(Mask(n)) == {n}
  {
    forall k: nat ensures k in Bits(Mask(n)) <==> k in {n} {
      if k < 16 { MasksDiffer(n, k); }
    }
    SameMembers(Bits(Mask(n)), {n});
  }

  lemma {:induction false} MasksDiffer(n: nat, k: nat)
    requires n < 16 && k < 16
    ensures HasBit(Mask(n), k) <==> n == k
  {
    MaskValues();
  }

  // -- The operations as the kernel uses them --

  method SetBits(a: Word, b: Word) returns (r: Word)
    ensures Bits(r) == Bits(a) + Bits(b)
  {
    r := a | b;
    OrIsUnion(a, b);
  }

  method ClearBits(a: Word, b: Word) returns (r: Word)
    ensures Bits(r) == Bits(a) - Bits(b)
  {
    r := a & !b;
    AndNotIsDifference(a, b);
  }

  method Common(a: Word, b: Word) returns (r: Word)
    ensures Bits(r) == Bits(a) * Bits(b)
  {
    r := a & b;
    AndIsIntersection(a, b);
  }

  // a & b as a condition.
  method Meets(a: Word, b: Word) returns (r: bool)
    ensures r <==> Bits(a) * Bits(b) != {}
  {
    r := a & b != 0;
    AndIsIntersection(a, b);
    ZeroIsEmpty(a & b);
  }

  method Shift(n: nat) returns (r: Word)
    requires n < 16
    ensures Bits(r) == {n}
  {
    r := Mask(n);
    MaskIsSingleton(n);
  }
}
