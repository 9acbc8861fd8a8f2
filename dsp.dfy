// In-place buffer primitives of the real-time path: clear (a memset of zero
// samples), copy (a memcpy between distinct buffers) and mul (an in-place
// scalar multiply). A C pointer `p + off` is modelled as an array with an offset.
module Dsp {

  /** Zero the `n` samples starting at `off`; every other sample keeps its value. */
  method Clear(buf: array<real>, off: nat, n: nat)
    requires off + n <= buf.Length
    modifies buf
    ensures forall k :: off <= k < off + n ==> buf[k] == 0.0
    ensures forall k :: 0 <= k < buf.Length && !(off <= k < off + n) ==> buf[k] == old(buf[k])
  {
    forall k | off <= k < off + n {
      buf[k] := 0.0;
    }
  }

  /** Copy `n` samples of `src` from `srcOff` to `dst` at `dstOff`; the rest of `dst` is kept. */
  method Copy(src: array<real>, srcOff: nat, dst: array<real>, dstOff: nat, n: nat)
    requires src != dst
    requires srcOff + n <= src.Length && dstOff + n <= dst.Length
    modifies dst
    ensures forall k :: dstOff <= k < dstOff + n ==> dst[k] == src[srcOff + (k - dstOff)]
    ensures forall k :: 0 <= k < dst.Length && !(dstOff <= k < dstOff + n) ==> dst[k] == old(dst[k])
  {
    forall k | dstOff <= k < dstOff + n {
      dst[k] := src[srcOff + (k - dstOff)];
    }
  }

  /** Replace each of the `n` elements from `off` by its product with `v`; nothing else changes. */
  method Mul<T>(buf: array<T>, off: nat, v: T, n: nat, times: (T, T) -> T)
    requires off + n <= buf.Length
    modifies buf
    ensures forall k :: off <= k < off + n ==> buf[k] == times(old(buf[k]), v)
    ensures forall k :: 0 <= k < buf.Length && !(off <= k < off + n) ==> buf[k] == old(buf[k])
  {
    forall k | off <= k < off + n {
      buf[k] := times(buf[k], v);
    }
  }
}
