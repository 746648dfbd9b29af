/** A buffered frame (StreamFrame) and the orderings the queues keep. */
module StreamFrames {
  import opened MediaMuxer

  /** A frame as held in a queue: payload, declared length and timestamp. */
  datatype Frame = Frame(data: seq<Byte>, length: int, timestamp: int)

  /** Timestamps are non-decreasing from head to tail. */
  ghost predicate Sorted(q: seq<Frame>) {
    forall i, j :: 0 <= i < j < |q| ==> q[i].timestamp <= q[j].timestamp
  }

  /** Every timestamp in the queue is at most `h`. */
  ghost predicate AllAtMost(q: seq<Frame>, h: int) {
    forall i :: 0 <= i < |q| ==> q[i].timestamp <= h
  }

  /** `a` is what is left of `b` once some frames are taken off its head. */
  ghost predicate IsSuffix(a: seq<Frame>, b: seq<Frame>) {
    |a| <= |b| && a == b[|b| - |a|..]
  }

  /**
   * The length of the longest prefix of `q` whose timestamps are all at most
   * `h`: the number of frames a drain against horizon `h` takes off.
   */
  function PrefixAtMost(q: seq<Frame>, h: int): (n: nat)
    ensures n <= |q|
    ensures forall i :: 0 <= i < n ==> q[i].timestamp <= h
    ensures n < |q| ==> q[n].timestamp > h
  {
    if q == [] || q[0].timestamp > h then 0 else 1 + PrefixAtMost(q[1..], h)
  }

  /** A sorted queue is bounded by its last timestamp. */
  lemma SortedBoundedByLast(q: seq<Frame>)
    requires Sorted(q) && q != []
    ensures AllAtMost(q, q[|q| - 1].timestamp)
  {
  }

  /** Taking frames off the head keeps a queue sorted and below any bound it had. */
  lemma SuffixKeepsOrder(a: seq<Frame>, b: seq<Frame>, h: int)
    requires IsSuffix(a, b)
    ensures Sorted(b) ==> Sorted(a)
    ensures AllAtMost(b, h) ==> AllAtMost(a, h)
  {
  }

  lemma SuffixTransitive(a: seq<Frame>, b: seq<Frame>, c: seq<Frame>)
    requires IsSuffix(a, b) && IsSuffix(b, c)
    ensures IsSuffix(a, c)
  {
  }
}
