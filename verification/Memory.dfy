/** Flat byte memories: the device address space, the caller's pageable memory and
    the pinned staging chunks are all sequences of bytes. */
module Memory {
  newtype byte = x: int | 0 <= x < 256

  /** `m` with `data` written at offset `at`: what a plain memcpy does. */
  function Splice(m: seq<byte>, at: nat, data: seq<byte>): (r: seq<byte>)
    requires at + |data| <= |m|
    ensures |r| == |m|
    ensures forall a {:trigger r[a]} :: 0 <= a < |m| ==>
                                          r[a] == if at <= a < at + |data| then data[a - at] else m[a]
  {
    m[..at] + data + m[at + |data|..]
  }

  /** Two memcpys to adjacent ranges are one memcpy of the concatenated bytes. */
  lemma {:induction false} SpliceAdjacent(m: seq<byte>, at: nat, first: seq<byte>, second: seq<byte>)
    requires at + |first| + |second| <= |m|
    ensures Splice(Splice(m, at, first), at + |first|, second) == Splice(m, at, first + second)
  {
    assert |Splice(m, at, first)| == |m|;
  }

  lemma {:induction false} SliceOfSlice(m: seq<byte>, at: nat, n: nat, off: nat, len: nat)
    requires at + n <= |m| && off + len <= n
    ensures m[at..at + n][off..off + len] == m[at + off..at + off + len]
  {
    var whole := m[at..at + n];
    var part, same := whole[off..off + len], m[at + off..at + off + len];
    forall k | 0 <= k < len ensures part[k] == same[k] {
      assert part[k] == whole[off + k];
    }
  }

  /** The addresses `[at, at + n)`. */
  function Range(at: nat, n: nat): (r: set<nat>)
    ensures forall a: nat :: a in r <==> at <= a < at + n
  {
    set a: nat | a < at + n && Within(a, at, n)
  }

  predicate Within(a: nat, at: nat, n: nat) { at <= a < at + n }

  function Min(a: nat, b: nat): nat { if a < b then a else b }
}
