/** Bytes, bounded buffers and ring positions, shared by the queues, the channel, the trace and the text parsers. */
module Buffers {

  newtype byte = x: int | 0 <= x < 256

  function Min(a: nat, b: nat): nat { if a < b then a else b }

  /** At most the first n elements: what a buffer of capacity n keeps. */
  function Clip<T>(s: seq<T>, n: nat): (r: seq<T>)
    ensures r <= s && |r| == Min(|s|, n)
    ensures |s| <= n ==> r == s
  {
    s[..Min(|s|, n)]
  }

  /** The position of the i-th element of a ring whose first one is at head. */
  function RingSlot(head: nat, i: nat, capacity: nat): (r: nat)
    requires head < capacity && i <= capacity
    ensures r < capacity
  {
    if head + i < capacity then head + i else head + i - capacity
  }
}
