// Integer helpers of the driver: clamp, variadic min/max, the power-of-two test
// and the "is one of" membership test. Argument packs are modelled as sequences.
module Util {

  /** Clamp `d` between `lo` and `hi`: first raise it to `lo`, then cut it to `hi`. */
  function Clamp(d: int, lo: int, hi: int): (r: int)
    ensures lo <= hi ==> lo <= r <= hi
    ensures lo <= hi ==> (r == d <==> lo <= d <= hi)
    ensures d < lo && lo <= hi ==> r == lo
    ensures d > hi ==> r == hi
    ensures lo > hi ==> r == hi
  {
    var t := if d < lo then lo else d;
    if t > hi then hi else t
  }

  /** Smallest of two or more arguments, pairing them off from the left. */
  function Min(vs: seq<int>): (r: int)
    requires |vs| >= 2
    ensures r in vs
    ensures forall i :: 0 <= i < |vs| ==> r <= vs[i]
    decreases |vs|
  {
    if |vs| == 2 then
      (if vs[1] < vs[0] then vs[1] else vs[0])
    else
      var rest := if vs[1] < vs[0] then [vs[1]] + vs[2..] else [vs[0]] + vs[2..];
      assert forall i :: 2 <= i < |vs| ==> vs[i] == rest[i - 1];
      Min(rest)
  }

  /** Largest of two or more arguments, pairing them off from the left. */
  function Max(vs: seq<int>): (r: int)
    requires |vs| >= 2
    ensures r in vs
    ensures forall i :: 0 <= i < |vs| ==> vs[i] <= r
    decreases |vs|
  {
    if |vs| == 2 then
      (if vs[1] > vs[0] then vs[1] else vs[0])
    else
      var rest := if vs[1] > vs[0] then [vs[1]] + vs[2..] else [vs[0]] + vs[2..];
      assert forall i :: 2 <= i < |vs| ==> vs[i] == rest[i - 1];
      Max(rest)
  }

  /** Bitwise and of two unsigned integers, bit by bit from the lowest. */
  function BitAnd(a: nat, b: nat): (r: nat)
    ensures r <= a && r <= b
  {
    if a == 0 || b == 0 then 0
    else 2 * BitAnd(a / 2, b / 2) + (if a % 2 == 1 && b % 2 == 1 then 1 else 0)
  }

  function Pow2(k: nat): (r: nat)
    ensures r >= 1
  {
    if k == 0 then 1 else 2 * Pow2(k - 1)
  }

  /** `v && !(v & (v - 1))` on an unsigned integer. */
  predicate IsPowerOfTwo(v: nat): (p: bool)
    ensures p ==> v == 1 || v % 2 == 0
  {
    OddIsNoPowerOfTwo(v);
    v != 0 && BitAnd(v, v - 1) == 0
  }

  /** An odd number above one keeps a bit in `v & (v - 1)`. */
  lemma OddIsNoPowerOfTwo(v: nat)
    ensures v > 1 && v % 2 == 1 ==> BitAnd(v, v - 1) == v - 1
  {
    if v > 1 && v % 2 == 1 {
      OddBitAnd(v);
    }
  }

  lemma {:induction false} BitAndSelf(a: nat)
    ensures BitAnd(a, a) == a
  {
    if a != 0 {
      BitAndSelf(a / 2);
    }
  }

  lemma ModHalf(t: nat, p: nat)
    requires p >= 1
    ensures t % (2 * p) == 2 * ((t / 2) % p) + t % 2
  {
    var q := (t / 2) / p;
    var s := (t / 2) % p;
    assert t / 2 == q * p + s;
    assert t == 2 * (t / 2) + t % 2;
    assert t == q * (2 * p) + (2 * s + t % 2);
    assert 0 <= 2 * s + t % 2 < 2 * p;
    ModUnique(t, 2 * p, q, 2 * s + t % 2);
  }

  lemma ModUnique(t: int, m: int, q: int, s: int)
    requires m >= 1 && 0 <= s < m && t == q * m + s
    ensures t % m == s
  {
    var d, r := t / m, t % m;
    assert t == d * m + r;
    assert (d - q) * m == s - r;
    if d > q {
      MulAtLeast(d - q, m);
      assert false;
    } else if d < q {
      MulAtLeast(q - d, m);
      assert false;
    }
  }

  lemma MulAtLeast(a: int, m: int)
    requires a >= 1 && m >= 1
    ensures a * m >= m
  {
  }

  /** Masking with `2^k - 1` keeps the low k bits: the remainder modulo `2^k`. */
  lemma {:induction false} MaskIsMod(t: nat, k: nat)
    ensures BitAnd(t, Pow2(k) - 1) == t % Pow2(k)
  {
    if k == 0 {
      MaskOfNothing(t);
    } else if t == 0 {
      MaskOfZero(k);
    } else {
      MaskIsMod(t / 2, k - 1);
      MaskStepPow2(t, k);
    }
  }

  lemma MaskOfNothing(t: nat)
    ensures BitAnd(t, Pow2(0) - 1) == t % Pow2(0)
  {
    assert Pow2(0) == 1;
  }

  lemma MaskOfZero(k: nat)
    ensures BitAnd(0, Pow2(k) - 1) == 0 % Pow2(k)
  {
  }

  lemma MaskStepPow2(t: nat, k: nat)
    requires k > 0 && t != 0
    requires BitAnd(t / 2, Pow2(k - 1) - 1) == (t / 2) % Pow2(k - 1)
    ensures BitAnd(t, Pow2(k) - 1) == t % Pow2(k)
  {
    var p := Pow2(k - 1);
    assert Pow2(k) == 2 * p;
    MaskStep(t, p);
  }

  /** Masking with `2p - 1` is the remainder modulo `2p` once masking `t / 2` with `p - 1` is. */
  lemma MaskStep(t: nat, p: nat)
    requires p >= 1 && t != 0
    requires BitAnd(t / 2, p - 1) == (t / 2) % p
    ensures BitAnd(t, 2 * p - 1) == t % (2 * p)
  {
    OddMaskStep(t, p);
    ModHalf(t, p);
  }

  /** One step of masking with an odd mask `2p - 1`: keep the low bit, mask the rest with `p - 1`. */
  lemma OddMaskStep(t: nat, p: nat)
    requires p >= 1 && t != 0
    ensures BitAnd(t, 2 * p - 1) == 2 * BitAnd(t / 2, p - 1) + t % 2
  {
    assert (2 * p - 1) / 2 == p - 1 && (2 * p - 1) % 2 == 1;
  }

  lemma {:induction false} Pow2IsPowerOfTwo(k: nat)
    ensures IsPowerOfTwo(Pow2(k))
  {
    MaskIsMod(Pow2(k), k);
    ModUnique(Pow2(k), Pow2(k), 1, 0);
  }

  lemma OddBitAnd(v: nat)
    requires v > 1 && v % 2 == 1
    ensures BitAnd(v, v - 1) == v - 1
  {
    BitAndSelf(v / 2);
    assert (v - 1) / 2 == v / 2;
  }

  /** Every value passing the bit test is an exact power of two. */
  lemma {:induction false} PowerOfTwoIsPow2(v: nat) returns (k: nat)
    requires IsPowerOfTwo(v)
    ensures Pow2(k) == v
  {
    if v == 1 {
      k := 0;
    } else if v % 2 == 1 {
      OddBitAnd(v);
      assert false;
    } else {
      assert (v - 1) / 2 == v / 2 - 1 && (v - 1) % 2 == 1;
      assert BitAnd(v, v - 1) == 2 * BitAnd(v / 2, v / 2 - 1);
      var j := PowerOfTwoIsPow2(v / 2);
      k := j + 1;
    }
  }

  /** For a power of two `c`, `t & (c - 1)` is `t % c`: the ring-offset identity. */
  lemma MaskIsModulo(t: nat, c: nat)
    requires IsPowerOfTwo(c)
    ensures BitAnd(t, c - 1) == t % c
  {
    var k := PowerOfTwoIsPow2(c);
    MaskIsMod(t, k);
  }

  /** `t == t1 || t == t2 || ...`, for one or more candidates. */
  function IsOneOf<T(==)>(t: T, ts: seq<T>): (r: bool)
    requires |ts| >= 1
    ensures r <==> t in ts
    decreases |ts|
  {
    if |ts| == 1 then t == ts[0] else t == ts[0] || IsOneOf(t, ts[1..])
  }
}
