/** The messages of the websocket layer (ws-service/internal/protocol/envelope.go,
frontend/src/app/collaboration/collab.types.ts). */
module Envelopes {
  import opened Wrappers

  /** A Yjs update. A Yjs document is treated as the set of updates merged into it. */
  type Update = nat

  datatype Body =
    | Joined(user: int, name: string)
    | Left(user: int, name: string)
    | Edit(update: Option<Update>)      // `doc.change`; None when the payload holds no update
    | Chat(text: string)
    | Ack
    | Error

  /** The updates carried by a stream of messages, in order. */
  function Updates(bodies: seq<Body>): seq<Update> {
    if bodies == [] then []
    else
      var last := bodies[|bodies| - 1];
      Updates(bodies[..|bodies| - 1]) + (if last.Edit? && last.update.Some? then [last.update.value] else [])
  }

  lemma UpdatesSnoc(bodies: seq<Body>, b: Body)
    ensures Updates(bodies + [b]) == Updates(bodies) + (if b.Edit? && b.update.Some? then [b.update.value] else [])
  {
    assert (bodies + [b])[..|bodies|] == bodies;
  }

  /** Which updates a stream carries, and in which order: part by part. */
  lemma {:induction false} UpdatesInOrder(xs: seq<Body>, ys: seq<Body>)
    ensures Updates(xs + ys) == Updates(xs) + Updates(ys)
  {
    if ys == [] {
      assert xs + ys == xs;
    } else {
      var last := |ys| - 1;
      UpdatesInOrder(xs, ys[..last]);
      var before, rest := Updates(xs), Updates(ys[..last]);
      assert (xs + ys)[..|xs| + last] == xs + ys[..last];
      assert (xs + ys)[|xs| + last] == ys[last];
      if ys[last].Edit? && ys[last].update.Some? {
        assert (before + rest) + [ys[last].update.value] == before + (rest + [ys[last].update.value]);
      }
    }
  }

  lemma UpdatesOfOne(b: Body)
    ensures Updates([b]) == match b case Edit(Some(u)) => [u] case _ => []
  {
    assert [b][..0] == [];
  }

  lemma {:induction false} UpdatesContain(bodies: seq<Body>, u: Update)
    ensures u in Updates(bodies) <==> Edit(Some(u)) in bodies
  {
    if bodies != [] {
      var init := bodies[..|bodies| - 1];
      UpdatesContain(init, u);
      assert bodies == init + [bodies[|bodies| - 1]];
    }
  }
}
