/** A bounded buffer that evicts its oldest element when full: the behaviour the match
    aggregator relies on from its circular buffers. */
module BoundedBuffer {

  datatype Buffer<T> = Buffer(capacity: nat, items: seq<T>)

  /** A usable buffer: positive capacity, never over it. */
  type Bounded<T> = b: Buffer<T> | 0 < b.capacity && |b.items| <= b.capacity witness Buffer(1, [])

  /** The newest `n` elements of `s` (all of them when there are at most `n`). */
  function Newest<T>(s: seq<T>, n: nat): (r: seq<T>)
    ensures |r| == if |s| <= n then |s| else n
    ensures forall i :: 0 <= i < |r| ==> r[i] == s[|s| - |r| + i]
  {
    if |s| <= n then s else s[|s| - n..]
  }

  function Empty<T>(capacity: nat): (b: Bounded<T>)
    requires 0 < capacity
    ensures b.capacity == capacity && b.items == []
  {
    Buffer(capacity, [])
  }

  /** `Add`: appends `x`, dropping the oldest element when the buffer was full. */
  function Add<T>(b: Bounded<T>, x: T): (r: Bounded<T>)
    ensures r.capacity == b.capacity
    ensures |r.items| > 0 && r.items[|r.items| - 1] == x
    ensures |b.items| < b.capacity ==> r.items == b.items + [x]
    ensures |b.items| == b.capacity ==> r.items == b.items[1..] + [x]
  {
    Buffer(b.capacity, Newest(b.items + [x], b.capacity))
  }

  /** `Enqueue(xs)`: adds each element in turn. */
  function Enqueue<T>(b: Bounded<T>, xs: seq<T>): (r: Bounded<T>)
    ensures r.capacity == b.capacity
    ensures r.items == Newest(b.items + xs, b.capacity)
    decreases |xs|
  {
    if |xs| == 0 then
      assert b.items + xs == b.items;
      b
    else
      var b' := Add(b, xs[0]);
      assert b'.items == Newest(b.items + [xs[0]], b.capacity);
      var r := Enqueue(b', xs[1..]);
      NewestOfNewest(b.items + [xs[0]], xs[1..], b.capacity);
      SplitFirst(b.items, xs);
      r
  }

  lemma SplitFirst<T>(s: seq<T>, xs: seq<T>)
    requires |xs| > 0
    ensures s + [xs[0]] + xs[1..] == s + xs
  {
    assert xs == [xs[0]] + xs[1..];
  }

  /** Trimming before appending more changes nothing once the result is trimmed again. */
  lemma NewestOfNewest<T>(s: seq<T>, t: seq<T>, n: nat)
    ensures Newest(Newest(s, n) + t, n) == Newest(s + t, n)
  {
    if |s| > n {
      var k := |s| - n;
      assert Newest(s, n) + t == (s + t)[k..];
      NewestOfSuffix(s + t, k, n);
    }
  }

  /** Dropping elements older than the newest `n` does not change the newest `n`. */
  lemma NewestOfSuffix<T>(x: seq<T>, k: nat, n: nat)
    requires k + n <= |x|
    ensures Newest(x[k..], n) == Newest(x, n)
  {
    if |x| - k > n {
      assert x[k..][|x| - k - n..] == x[|x| - n..];
    }
  }

  /** Filling an empty buffer with at most `capacity` elements keeps exactly those elements. */
  lemma EnqueueIntoEmpty<T>(capacity: nat, xs: seq<T>)
    requires 0 < capacity && |xs| <= capacity
    ensures Enqueue(Empty(capacity), xs).items == xs
  {
    assert [] + xs == xs;
  }
}
