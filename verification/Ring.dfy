/** The ring buffer behind the Chase-Lev and blocking deques: index i lives in slot i % capacity. */
module Ring {

  /** The copying loop of resize: slots [i, bot) of `src` written over `dst`. */
  function CopyRange<T>(src: seq<T>, dst: seq<T>, i: nat, bot: nat): (r: seq<T>)
    requires |src| > 0 && |dst| > 0
    ensures |r| == |dst|
    decreases bot - i
  {
    if i >= bot then dst else CopyRange(src, dst[i % |dst| := src[i % |src|]], i + 1, bot)
  }

  /** Distinct indices closer than the capacity have distinct slots. */
  lemma DistinctSlots(i: nat, j: nat, cap: nat)
    requires cap > 0 && i < j < i + cap
    ensures i % cap != j % cap
  {
    var q := j / cap - i / cap;
    assert j - i == q * cap + (j % cap - i % cap);
    assert q >= 1 ==> q * cap >= cap;
    assert q <= 0 ==> q * cap <= 0;
  }

  lemma {:induction false} CopyLeaves<T>(src: seq<T>, dst: seq<T>, i: nat, bot: nat, k: nat)
    requires |src| > 0 && |dst| > 0 && k < i && bot <= k + |dst|
    ensures CopyRange(src, dst, i, bot)[k % |dst|] == dst[k % |dst|]
    decreases bot - i
  {
    if i < bot {
      DistinctSlots(k, i, |dst|);
      CopyLeaves(src, dst[i % |dst| := src[i % |src|]], i + 1, bot, k);
    }
  }

  /** Resizing keeps every element, at its new slot. */
  lemma {:induction false} CopyKeeps<T>(src: seq<T>, dst: seq<T>, i: nat, bot: nat, k: nat)
    requires |src| > 0 && |dst| > 0 && i <= k < bot <= i + |dst|
    ensures CopyRange(src, dst, i, bot)[k % |dst|] == src[k % |src|]
    decreases bot - i
  {
    var dst' := dst[i % |dst| := src[i % |src|]];
    if k == i {
      CopyLeaves(src, dst', i + 1, bot, i);
    } else {
      CopyKeeps(src, dst', i + 1, bot, k);
    }
  }

  /** atomic_ring_buf::resize: a buffer of twice the capacity that holds the same elements. */
  method Resize<T>(src: array<T>, bot: nat, top: nat, junk: T) returns (dst: array<T>)
    requires src.Length > 0 && top <= bot <= top + 2 * src.Length
    ensures dst.Length == 2 * src.Length
    ensures forall k: nat :: top <= k < bot ==> dst[k % dst.Length] == src[k % src.Length]
  {
    dst := new T[2 * src.Length](_ => junk);
    var i := top;
    ghost var start := dst[..];
    while i != bot
      invariant top <= i <= bot
      invariant CopyRange(src[..], dst[..], i, bot) == CopyRange(src[..], start, top, bot)
    {
      dst[i % dst.Length] := src[i % src.Length];
      i := i + 1;
    }
    forall k: nat | top <= k < bot ensures dst[k % dst.Length] == src[k % src.Length] {
      CopyKeeps(src[..], start, top, bot, k);
    }
  }
}
