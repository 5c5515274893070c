/** No goroutine of the room protocol ever waits for another in a circle: in every reachable state each of
them that is not at its end can take its next step. */
module RoomProgress {
  import opened Wrappers
  import opened Envelopes
  import opened RoomProtocol
  import opened RoomInvariants
  import opened RoomDelivery
  import opened RoomTheorems

  /** A broadcast that is on can go on: to the next client, to the next one to close, or to its end. */
  lemma BroadcastMoves(s: State, th: Thread) returns (a: Step)
    requires Inv(s) && ValidThread(s, th) && TaskOf(s, th).Sending?
    ensures Enabled(s, a) && Actor(a) == Some(th)
  {
    var task := TaskOf(s, th);
    assert TargetsOk(s, th);
    if task.todo != {} {
      var r :| r in task.todo;
      a := Offer(th, r);
    } else if task.slow != {} {
      var r :| r in task.slow;
      a := Drop(th, r);
    } else {
      a := Finish(th);
    }
  }

  /** The step belongs to the client's own goroutine. */
  predicate OwnStep(a: Step, c: ClientId) {
    Actor(a) == Some(OfClient(c)) || a == CloseSelf(c) || a == CloseSub(c)
  }

  /** A client whose departure is not complete can always take a step of its own, whoever else is doing
  what. */
  lemma ClientMoves(ss: seq<State>, steps: seq<Step>, n: nat, c: ClientId) returns (a: Step)
    requires Run(ss, steps) && n <= |steps| && c < |ss[n].clients| && !ss[n].clients[c].phase.Gone?
    ensures Enabled(ss[n], a) && OwnStep(a, c)
  {
    var s := ss[n];
    ReachableInv(ss, steps, n);
    assert ClientTaskOk(s, c);
    var cl, task := s.clients[c], TaskOf(s, OfClient(c));
    match task
    case Sending(_, _, _, _) => a := BroadcastMoves(s, OfClient(c));
    case Publishing(_) => a := Publish(c, true);
    case MustAnnounce =>
      a := if cl.phase.Joining? then Begin(c, Joined(cl.user, cl.name)) else Begin(c, Left(cl.user, cl.name));
    case Waiting =>
      if cl.phase.Live? {
        a := Unregister(c);
      } else if cl.phase.Leaving? {
        a := CloseSelf(c);
      } else {
        assert cl.Emptied().Some? ==> DebtOk(s, c, cl.Emptied().value);
        a := CloseSub(c);
      }
  }

  /** Anyone may arrive at any hub and document at any time, with any buffer there can be; the room's
  subscription, if one is made, may already have missed or still be given what was published meanwhile. */
  lemma AnyoneArrives(s: State, node: Node, doc: Doc, user: int, name: string, cap: nat, subAt: nat)
    requires 0 < cap && subAt <= |s.log|
    ensures Enabled(s, Register(node, doc, user, name, cap, subAt))
  {}

  /** A live client that is not busy may hand over whatever its user sends. */
  lemma LiveClientSends(s: State, c: ClientId, body: Body)
    requires c < |s.clients| && s.clients[c].phase.Live? && TaskOf(s, OfClient(c)).Waiting?
    ensures Enabled(s, Begin(c, body)) <==> body.Edit? || body.Chat?
    ensures Enabled(s, Reply(c)) && Enabled(s, Unregister(c))
  {}

  /** A subscription that has not come to the end of what it hears, or is handing something on, can always
  go on. */
  lemma SubscriptionMoves(ss: seq<State>, steps: seq<Step>, n: nat, e: SubId) returns (a: Step)
    requires Run(ss, steps) && n <= |steps| && e < |ss[n].subs|
    requires var (s, sub) := (ss[n], ss[n].subs[e]);
             || TaskOf(s, OfSub(e)).Sending?
             || sub.cursor < (match sub.end case Some(end) => end case None => |s.log|)
    ensures Enabled(ss[n], a) && Actor(a) == Some(OfSub(e))
  {
    var s := ss[n];
    ReachableInv(ss, steps, n);
    assert SubTaskOk(s, e) && Within(s.subs[e], |s.log|);
    if TaskOf(s, OfSub(e)).Sending? {
      a := BroadcastMoves(s, OfSub(e));
    } else {
      a := if ForSub(s, e, s.subs[e].cursor) then Receive(e) else Skip(e);
    }
  }

  /** The write pump sends the oldest item not yet sent, once the client's registration is over; the socket
  may break at any time. Neither touches anything else. */
  lemma WritesExactly(s: State, c: ClientId)
    requires c < |s.clients|
    ensures var cl := s.clients[c];
            && (Enabled(s, Write(c)) <==> !cl.phase.Joining? && cl.written < |cl.pushed|)
            && (Enabled(s, Write(c)) ==>
                  Next(s, Write(c)) == s.(clients := s.clients[c := cl.(written := cl.written + 1)]))
            && Enabled(s, Cut(c)) && Next(s, Cut(c)) == s.(clients := s.clients[c := cl.(closed := true)])
  {}
}
