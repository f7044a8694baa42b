/**
 * The CBuffer ring buffer that holds `{message}` wrappers while the stream is
 * disconnected. CBuffer is an external library whose code is not part of this
 * model, so its behaviour is written down here as assumptions, following the
 * JavaScript Array method names it mirrors:
 *   - `new CBuffer(n)` is empty with room for n entries;
 *   - `push` appends, and when the buffer is full the oldest entry is
 *     overwritten to make room;
 *   - `pop` removes and returns the most recently pushed entry, or nothing
 *     when the buffer is empty;
 *   - `empty` drops every entry and keeps the capacity.
 * The buffer is a value here; the stream replaces its field with the result.
 */
module CircularBuffer {
  import opened Wrappers

  /** The wrapper `{message}` the stream pushes. */
  datatype Entry = Entry(message: string)

  /** The entries, oldest first, and the capacity given at construction. */
  datatype CBuffer = CBuffer(items: seq<Entry>, capacity: nat)

  predicate Valid(b: CBuffer) {
    0 < b.capacity && |b.items| <= b.capacity
  }

  /** `new CBuffer(capacity)`. */
  function Create(capacity: nat): (b: CBuffer)
    requires capacity > 0
    ensures Valid(b) && b.capacity == capacity && b.items == []
  {
    CBuffer([], capacity)
  }

  /** `push(e)`: keeps the newest `capacity` entries of the old ones followed by e. */
  function Push(b: CBuffer, e: Entry): (r: CBuffer)
    requires Valid(b)
    ensures Valid(r) && r.capacity == b.capacity
    ensures |r.items| == if |b.items| < b.capacity then |b.items| + 1 else b.capacity
    ensures r.items == (b.items + [e])[|b.items| + 1 - |r.items|..]
  {
    if |b.items| < b.capacity then b.(items := b.items + [e])
    else b.(items := b.items[1..] + [e])
  }

  /** `pop()`: the last pushed entry and the buffer without it; nothing when empty. */
  function Pop(b: CBuffer): (r: (Option<Entry>, CBuffer))
    ensures r.1.capacity == b.capacity
    ensures b.items == [] ==> r.0 == None && r.1 == b
    ensures b.items != [] ==> r.0 == Some(b.items[|b.items| - 1]) && r.1.items == b.items[..|b.items| - 1]
  {
    if b.items == [] then (None, b)
    else (Some(b.items[|b.items| - 1]), b.(items := b.items[..|b.items| - 1]))
  }

  /** `empty()`. */
  function Clear(b: CBuffer): (r: CBuffer)
    ensures r.items == [] && r.capacity == b.capacity
  {
    b.(items := [])
  }

  /** Pushing the messages of `xs` one after another. */
  function PushAll(b: CBuffer, xs: seq<Entry>): (r: CBuffer)
    requires Valid(b)
    ensures Valid(r) && r.capacity == b.capacity
    decreases |xs|
  {
    if xs == [] then b else Push(PushAll(b, xs[..|xs| - 1]), xs[|xs| - 1])
  }

  /** The last n entries of s, or all of s when it is shorter. */
  function Newest(s: seq<Entry>, n: nat): (r: seq<Entry>)
    ensures |r| == if |s| < n then |s| else n
  {
    if |s| <= n then s else s[|s| - n..]
  }

  /** Keeping the newest n, then appending and keeping the newest n again, loses nothing. */
  lemma NewestAppend(s: seq<Entry>, e: Entry, n: nat)
    requires n > 0
    ensures Newest(Newest(s, n) + [e], n) == Newest(s + [e], n)
  {
    if |s| > n {
      assert Newest(s, n) + [e] == (s + [e])[|s| - n..];
      assert (s + [e])[|s| - n..][1..] == (s + [e])[|s| + 1 - n..];
    }
  }

  /** One push keeps the newest `capacity` of the old entries followed by e. */
  lemma PushIsNewest(b: CBuffer, e: Entry)
    requires Valid(b)
    ensures Push(b, e).items == Newest(b.items + [e], b.capacity)
  {
    if |b.items| == b.capacity {
      assert b.items[1..] + [e] == (b.items + [e])[|b.items| + 1 - b.capacity..];
    }
  }

  /**
   * Whatever is pushed, the buffer ends up holding exactly the newest entries
   * that fit, in push order: the newest `capacity` of the old items followed
   * by xs.
   */
  lemma {:induction false} PushAllKeepsNewest(b: CBuffer, xs: seq<Entry>)
    requires Valid(b)
    ensures PushAll(b, xs).items == Newest(b.items + xs, b.capacity)
    decreases |xs|
  {
    if xs == [] {
      assert b.items + xs == b.items;
    } else {
      var init, last := xs[..|xs| - 1], xs[|xs| - 1];
      PushAllKeepsNewest(b, init);
      var before := PushAll(b, init);
      assert before.items == Newest(b.items + init, b.capacity);
      PushIsNewest(before, last);
      NewestAppend(b.items + init, last, b.capacity);
      assert b.items + init + [last] == b.items + xs;
    }
  }

  /** What was pushed last is what pop returns. */
  lemma PopReturnsLastPushed(b: CBuffer, e: Entry)
    requires Valid(b)
    ensures Pop(Push(b, e)).0 == Some(e)
  {
  }
}
