// 32-bit words: the bijections murmurhash2 mixes with.
module Words {

  // Multiplication by `m`.
  function Mul(x: bv32): bv32 { x * 0x5bd1e995 }

  // The right shifts in use, and xor of a word with one of its own.
  datatype Shift = By13 | By15 | By24

  function Shr(x: bv32, s: Shift): bv32 {
    match s
    case By13 => x >> 13
    case By15 => x >> 15
    case By24 => x >> 24
  }

  function Fold(x: bv32, s: Shift): bv32 { Xor(x, Shr(x, s)) }

  function Xor(x: bv32, y: bv32): bv32 { x ^ y }
  function Shl8(x: bv32): bv32 { x << 8 }
  function Shl16(x: bv32): bv32 { x << 16 }
  function Join2(x1: bv32, x0: bv32): bv32 { (x1 << 8) ^ x0 }
  function Join3(x2: bv32, x1: bv32, x0: bv32): bv32 { (x2 << 16) ^ (x1 << 8) ^ x0 }

  // ---- multiplication ----

  predicate IsProduct(x: bv32, y: bv32) { y == x * 0x5bd1e995 }

  lemma MulIsProduct(x: bv32)
    ensures IsProduct(x, Mul(x))
  {
  }

  // 0xe59b19bd is the inverse of `m` modulo 2^32.
  lemma FactorsAgree(a: bv32, b: bv32)
    requires a * 0x5bd1e995 == b * 0x5bd1e995
    ensures a == b
  {
    assert (a * 0x5bd1e995) * 0xe59b19bd == a;
    assert (b * 0x5bd1e995) * 0xe59b19bd == b;
  }

  lemma OneFactor(a: bv32, b: bv32, c: bv32)
    requires IsProduct(a, c) && IsProduct(b, c)
    ensures a == b
  {
    assert a * 0x5bd1e995 == c;
    assert b * 0x5bd1e995 == c;
    FactorsAgree(a, b);
  }

  lemma MulInjective(a: bv32, b: bv32)
    requires Mul(a) == Mul(b)
    ensures a == b
  {
    hide Mul, IsProduct;
    MulIsProduct(a);
    MulIsProduct(b);
    OneFactor(a, b, Mul(a));
  }

  // ---- xor ----

  lemma XorInjective(a: bv32, b: bv32, c: bv32)
    ensures Xor(a, c) == Xor(b, c) ==> a == b
    ensures Xor(c, a) == Xor(c, b) ==> a == b
  {
  }

  lemma XorZero(a: bv32, b: bv32)
    requires Xor(a, b) == 0
    ensures a == b
  {
  }

  lemma XorJoin2(h: bv32, x1: bv32, x0: bv32)
    ensures Xor(Xor(h, Shl8(x1)), x0) == Xor(h, Join2(x1, x0))
  {
  }

  lemma XorJoin3(h: bv32, x2: bv32, x1: bv32, x0: bv32)
    ensures Xor(Xor(Xor(h, Shl16(x2)), Shl8(x1)), x0) == Xor(h, Join3(x2, x1, x0))
  {
  }

  lemma XorSwap(a: bv32, x: bv32, b: bv32, y: bv32)
    requires Xor(a, x) == Xor(b, y)
    ensures Xor(Xor(a, b), Xor(x, y)) == 0
  {
  }

  // ---- folding: linear over xor, with a trivial kernel ----

  lemma Linear(a: bv32, b: bv32, s: Shift)
    ensures Shr(Xor(a, b), s) == Xor(Shr(a, s), Shr(b, s))
  {
    match s {
      case By13 =>
      case By15 =>
      case By24 =>
    }
  }

  lemma Kernel(d: bv32, s: Shift)
    requires Fold(d, s) == 0
    ensures d == 0
  {
    match s {
      case By13 =>
      case By15 =>
      case By24 =>
    }
  }

  lemma FoldInjective(a: bv32, b: bv32, s: Shift)
    requires Fold(a, s) == Fold(b, s)
    ensures a == b
  {
    hide Xor, Shr;
    XorSwap(a, Shr(a, s), b, Shr(b, s));
    Linear(a, b, s);
    Kernel(Xor(a, b), s);
    XorZero(a, b);
  }
}
