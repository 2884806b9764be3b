/**
 * A one-shot promise over a buffered channel of capacity 1: the first Set
 * stores its value and closes the channel, every later Set does nothing.
 */
module Concurrency {
  import opened Wrappers

  /**
   * A buffered Go channel, as far as the promise uses it: sending onto a
   * closed channel or closing it twice panics, and a send onto a full
   * buffer would block the only goroutine, so both are preconditions.
   */
  class Channel<T> {
    const capacity: nat
    var buffer: seq<T>
    var closed: bool

    constructor (capacity: nat)
      ensures this.capacity == capacity && buffer == [] && !closed
    {
      this.capacity := capacity;
      buffer := [];
      closed := false;
    }

    method Send(value: T)
      requires !closed && |buffer| < capacity
      modifies this
      ensures buffer == old(buffer) + [value] && !closed
    {
      buffer := buffer + [value];
    }

    method Close()
      requires !closed
      modifies this
      ensures closed && buffer == old(buffer)
    {
      closed := true;
    }
  }

  /** The read side of a promise: it shares the promise's channel. */
  datatype Future<T> = Future(channel: Channel<T>) {
    /** The value the future observes, once one has been sent; reading does not consume it. */
    function Get(): Option<T>
      reads channel
    {
      if |channel.buffer| > 0 then Some(channel.buffer[0]) else None
    }
  }

  class Promise<T> {
    const result: Channel<T>
    var promised: bool

    /**
     * The buffer never holds more than the channel's one slot, and it holds a
     * value, and is closed, exactly when the promise is resolved.
     */
    ghost predicate Valid()
      reads this, result
    {
      && result.capacity == 1
      && |result.buffer| <= result.capacity
      && (promised <==> result.closed)
      && (promised <==> |result.buffer| == 1)
    }

    /** NewPromise: unresolved, with an empty channel of capacity 1. */
    constructor ()
      ensures Valid() && fresh(result)
      ensures !promised && result.buffer == []
    {
      result := new Channel<T>(1);
      promised := false;
    }

    /** First write wins: only the first call stores its value; later calls change nothing. */
    method Set(value: T)
      requires Valid()
      modifies this, result
      ensures Valid() && promised
      ensures old(promised) ==> result.buffer == old(result.buffer)
      ensures !old(promised) ==> result.buffer == [value]
    {
      if promised {
        return;
      }
      promised := true;
      result.Send(value);
      result.Close();
    }

    method GetFuture() returns (future: Future<T>)
      ensures future.channel == result
    {
      future := Future(result);
    }
  }

  /**
   * A future taken before the promise is resolved observes the first value
   * set, and goes on observing it after a second Set.
   */
  method FirstSetWins<T>(first: T, second: T) returns (before: Option<T>, observed: Option<T>)
    ensures before == None
    ensures observed == Some(first)
  {
    var promise := new Promise<T>();
    var future := promise.GetFuture();
    before := future.Get();
    promise.Set(first);
    promise.Set(second);
    observed := future.Get();
  }
}
