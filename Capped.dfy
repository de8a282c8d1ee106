/**
 * The bounded store both analytics recorders keep: an array that is appended
 * to with `push` and, whenever that makes it longer than the capacity, loses
 * its oldest element with one `shift`.
 */
module Capped {

  /** The number of elements a store with capacity `capacity` can keep (a
      negative capacity keeps nothing). */
  function Room(capacity: int): nat
  {
    if capacity < 0 then 0 else capacity
  }

  /** The last min(|history|, Room(capacity)) elements of `history`. */
  function Keep<T>(history: seq<T>, capacity: int): (r: seq<T>)
    ensures |r| <= Room(capacity) && |r| <= |history|
  {
    var n := if |history| < Room(capacity) then |history| else Room(capacity);
    history[|history| - n..]
  }

  /** `store.push(x); if (store.length > capacity) store.shift()` */
  function PushShift<T>(store: seq<T>, x: T, capacity: int): seq<T>
  {
    var pushed := store + [x];
    if |pushed| > capacity then pushed[1..] else pushed
  }

  /** A store that holds the most recent arrivals still does after one more
      push-and-shift: a single shift per push is enough to stay within the
      capacity, and only the oldest element is ever dropped. */
  lemma PushShiftKeeps<T>(history: seq<T>, x: T, capacity: int)
    ensures PushShift(Keep(history, capacity), x, capacity) == Keep(history + [x], capacity)
  {
    var h := history + [x];
    var n := if |history| < Room(capacity) then |history| else Room(capacity);
    assert Keep(history, capacity) + [x] == h[|history| - n..];
  }
}
