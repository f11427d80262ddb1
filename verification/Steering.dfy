/** The bounded queue of user interjections (agent/src/agent/core/steer.py). */
module Steering {

  const MAX_SIZE: nat := 64

  /** The last 64 of the inputs, in their order. */
  function Newest(inputs: seq<string>): seq<string> {
    if |inputs| <= MAX_SIZE then inputs else inputs[|inputs| - MAX_SIZE..]
  }

  class SteerQueue {
    var queue: seq<string>
    /** Everything pushed since the queue was last emptied. */
    ghost var pushed: seq<string>

    ghost predicate Valid()
      reads this
    {
      queue == Newest(pushed)
    }

    constructor ()
      ensures Valid() && pushed == []
    {
      queue, pushed := [], [];
    }

    method Push(steer: string)
      requires Valid()
      modifies this
      ensures Valid() && pushed == old(pushed) + [steer]
    {
      if |queue| == MAX_SIZE {
        queue := queue[1..];
      }
      if |queue| < MAX_SIZE {
        queue := queue + [steer];
      }
      pushed := pushed + [steer];
    }

    method Drain() returns (items: seq<string>)
      requires Valid()
      modifies this
      ensures Valid() && pushed == []
      ensures items == Newest(old(pushed))
    {
      items := [];
      while queue != []
        invariant items + queue == Newest(old(pushed))
        decreases |queue|
      {
        items := items + [queue[0]];
        queue := queue[1..];
      }
      pushed := [];
    }

    method Clear()
      modifies this
      ensures Valid() && pushed == []
    {
      while queue != []
        decreases |queue|
      {
        queue := queue[1..];
      }
      pushed := [];
    }
  }
}
