/** The room's 64-bit pseudo-random generator. */
module Xorshift {

  function Next(x: bv64): bv64 {
    var a := x ^ (x << 13);
    var b := a ^ (a >> 7);
    b ^ (b << 17)
  }

  /** The number a word stands for. */
  function Value(x: bv64): nat
    decreases x
  {
    if x == 0 then 0 else 2 * Value(x >> 1) + if x & 1 == 1 then 1 else 0
  }

  /** The n-th state after the given one. */
  function Following(x: bv64, n: nat): bv64 { if n == 0 then x else Next(Following(x, n - 1)) }

  /** A number of millionths, short of one. */
  function Millionths(x: bv64): real { (Value(x) % 1000000) as real / 1000000.0 }

  /** A state other than zero is followed by one other than zero, so the generator never gets stuck there. */
  lemma NeverZero(x: bv64)
    requires x != 0
    ensures Next(x) != 0
  {
    var a := x ^ (x << 13);
    var b := a ^ (a >> 7);
    LeftKeeps13(x);
    RightKeeps7(a);
    LeftKeeps17(b);
  }

  lemma LeftKeeps13(x: bv64)
    ensures x ^ (x << 13) == 0 ==> x == 0
  {
  }

  lemma RightKeeps7(x: bv64)
    ensures x ^ (x >> 7) == 0 ==> x == 0
  {
  }

  lemma LeftKeeps17(x: bv64)
    ensures x ^ (x << 17) == 0 ==> x == 0
  {
  }
}
