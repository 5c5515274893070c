/** The goroutine that moves messages from Redis to a room's consumer
(ws-service/internal/broker/redis.go:34-39, 54-82), one channel operation at a time. */
module Forwarder {

  const CAPACITY := 256

  datatype Choice = TakeDone | TakeMessage

  class RedisSubscription {
    var messages: seq<string>        // the buffered channel
    var done: bool                   // `done` is closed
    var sourceOpen: bool             // go-redis may still deliver
    var inHand: seq<string>          // the message received but not yet put into `messages`
    var running: bool                // `forward` has not returned
    var outputClosed: bool           // `messages` is closed
    ghost var delivered: seq<string> // everything received from Redis
    ghost var handed: seq<string>    // everything the consumer has taken
    ghost var closings: nat          // how often `messages` was closed

    /** What the consumer has, what waits for it, and what is in hand are together what Redis delivered;
    the output is closed once, when the forwarder returns. */
    ghost predicate Valid()
      reads this
    {
      && |messages| <= CAPACITY && |inHand| <= 1
      && handed + messages + inHand <= delivered
      && (running ==> handed + messages + inHand == delivered)
      && outputClosed == !running && closings == (if running then 0 else 1)
      && (!running ==> inHand == [] && (done || !sourceOpen))
    }

    constructor ()
      ensures Valid() && running && !done && delivered == [] && handed == []
    {
      messages, inHand, delivered, handed := [], [], [], [];
      done, sourceOpen, running, outputClosed, closings := false, true, true, false, 0;
    }

    /** `Close`: signals and closes the Redis side, the first time. */
    method Close()
      requires Valid()
      modifies this`done, this`sourceOpen
      ensures Valid() && done && (old(done) ==> sourceOpen == old(sourceOpen)) && (!old(done) ==> !sourceOpen)
    {
      if !done {
        done := true;
        sourceOpen := false;
      }
    }

    method Return()
      requires Valid() && running && (done || !sourceOpen)
      modifies this`running, this`outputClosed, this`inHand, this`closings
      ensures Valid() && !running && outputClosed && inHand == []
    {
      inHand := [];
      running := false;
      outputClosed := true;
      closings := closings + 1;
    }

    /** The outer `select`: when both cases are ready either may be taken. A closed source with nothing
    left ends the loop. */
    method Await(arrived: seq<string>, choice: Choice)
      requires Valid() && running && inHand == [] && |arrived| <= 1
      requires arrived == [] ==> done || !sourceOpen      // otherwise the select blocks
      modifies this
      ensures Valid() && handed == old(handed) && messages == old(messages) && done == old(done)
      ensures running <==> arrived != [] && (choice == TakeMessage || !done)
      ensures running ==> inHand == arrived && delivered == old(delivered) + arrived
      ensures !running ==> delivered == old(delivered)
    {
      if done && (choice == TakeDone || arrived == []) {
        Return();
      } else if arrived == [] {
        Return();
      } else {
        inHand := arrived;
        delivered := delivered + arrived;
        assert handed + messages + inHand == handed + messages + [] + arrived;
      }
    }

    /** The inner `select`: put the message into the channel, or give up when done. */
    method Put(choice: Choice)
      requires Valid() && running && inHand != []
      requires |messages| < CAPACITY || done               // otherwise the select blocks
      modifies this
      ensures Valid() && handed == old(handed) && delivered == old(delivered) && done == old(done)
      ensures running <==> |old(messages)| < 256 && (choice == TakeMessage || !done)
      ensures messages == if running then old(messages) + old(inHand) else old(messages)
    {
      if done && (choice == TakeDone || |messages| == CAPACITY) {
        Return();
      } else {
        messages := messages + inHand;
        inHand := [];
        assert handed + messages + [] == handed + old(messages) + old(inHand);
      }
    }

    /** The consumer's `range`: takes the oldest message, also after the channel was closed. */
    method Take() returns (payload: string)
      requires Valid() && messages != []
      modifies this`messages, this`handed
      ensures Valid() && handed == old(handed) + [payload] && [payload] + messages == old(messages)
      ensures handed <= delivered
    {
      payload := messages[0];
      messages := messages[1..];
      handed := handed + [payload];
      assert handed + messages == old(handed) + old(messages);
    }
  }
}
