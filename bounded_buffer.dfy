/**
 * The bounded FIFO idiom the bot uses for its console log and its market-state history:
 * append the newest item, then drop the oldest one if the list has grown past its
 * capacity.
 */
module BoundedBuffer {

  /** `items.append(x); if len(items) > capacity: items.pop(0)`. */
  function Push<T>(items: seq<T>, x: T, capacity: nat): seq<T> {
    var appended := items + [x];
    if |appended| > capacity then appended[1..] else appended
  }

  /**
   * A buffer within its capacity stays within it; below capacity nothing is dropped; at
   * capacity exactly the oldest item is dropped; the new item is the last one whenever the
   * capacity is at least 1.
   */
  lemma {:induction false} PushBounded<T>(items: seq<T>, x: T, capacity: nat)
    requires |items| <= capacity
    ensures |Push(items, x, capacity)| <= capacity
    ensures |items| < capacity ==> Push(items, x, capacity) == items + [x]
    ensures |items| == capacity > 0 ==> Push(items, x, capacity) == items[1..] + [x]
    ensures capacity > 0 ==> Push(items, x, capacity)[|Push(items, x, capacity)| - 1] == x
  {
    if |items| == capacity > 0 {
      assert (items + [x])[1..] == items[1..] + [x];
    }
  }

  /**
   * What a push keeps is the tail of the old items followed by the new one, losing at most
   * the oldest item: the retained items keep their relative order.
   */
  lemma {:induction false} PushKeepsOrder<T>(items: seq<T>, x: T, capacity: nat)
    ensures var r := Push(items, x, capacity);
      |items| <= |r| <= |items| + 1 && r == (items + [x])[|items| + 1 - |r|..]
  {
  }
}
