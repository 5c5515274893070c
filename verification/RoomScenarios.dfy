/** A session, reachable in the room protocol, in which a client is given another hub's message twice: the
room that it found empty and opened anew is served by the old room's subscription as well. */
module RoomScenarios {
  import opened Wrappers
  import opened Envelopes
  import opened RoomMaps
  import opened RoomProtocol
  import opened RoomUndisturbed
  import opened RoomTheorems

  const ANN := Env(0, Joined(7, "ann"))
  const CARL := Env(1, Joined(8, "carl"))
  const BOB := Env(2, Joined(9, "bob"))

  const OLD := Sub(0, 1, 0, 0, None)
  const NEW := Sub(0, 1, 1, 1, None)

  /** Everything handed over has been published, and only ann's goroutine may be at work. */
  ghost predicate Session(s: State, rooms: Rooms, subs: seq<Sub>, handed: seq<Env>) {
    && Reached(s) && s.rooms == rooms && s.subs == subs && s.handed == handed
    && |s.log| == |handed| && (forall i | 0 <= i < |s.log| :: s.log[i] == i)
    && (forall th | th in s.tasks && th != OfClient(0) :: s.tasks[th] == Waiting)
  }

  /** Ann comes to hub 0 and leaves the room, which is no longer mapped, but its subscription is open. */
  lemma AnnComesAndLeaves() returns (s: State)
    ensures Session(s, map[], [OLD], [ANN]) && |s.clients| == 1 && s.clients[0].Key() == (0, 1)
    ensures s.clients[0].phase == Leaving(Some(0))
  {
    assert Run([INITIAL], []);
    var steps, s1 := RegisterUndisturbed(INITIAL, 0, 1, 7, "ann", 8, 0, true);
    ReachedOn(INITIAL, steps, s1);
    assert {0} - {0} == {};
    s := LeaveRoom(s1, 0);
    ReachedNext(s1, Unregister(0));
  }

  ghost predicate CarlHas(s: State, pushed: seq<Item>) {
    && 2 <= |s.clients| && s.clients[0].Key() == s.clients[1].Key() == (0, 1)
    && s.clients[0].phase == Leaving(Some(0)) && s.clients[1].phase == Live
    && s.clients[1].pushed == pushed && s.clients[1].written == 0 && s.clients[1].cap == 8
    && !s.clients[1].closed && s.clients[1].since == 1
  }

  /** Carl opens the room anew before ann has closed the old one's subscription. */
  lemma CarlComes(s1: State) returns (s: State)
    requires Session(s1, map[], [OLD], [ANN]) && |s1.clients| == 1 && s1.clients[0].Key() == (0, 1)
    requires s1.clients[0].phase == Leaving(Some(0))
    ensures Session(s, map[(0, 1) := Room({1}, 1)], [OLD, NEW], [ANN, CARL]) && CarlHas(s, [Local(1)])
    ensures |s.clients| == 2
  {
    var steps;
    steps, s := RegisterUndisturbed(s1, 0, 1, 8, "carl", 8, 1, true);
    ReachedOn(s1, steps, s);
    var mid := DoRegister(s1, 0, 1, 8, "carl", 8, 1);
    assert s.clients[1] == Relayed(mid.clients[1], true, Local(1), true);
    assert s.clients[0] == s1.clients[0];
  }

  /** Bob comes to hub 5. */
  lemma BobComes(s1: State) returns (s: State)
    requires Session(s1, map[(0, 1) := Room({1}, 1)], [OLD, NEW], [ANN, CARL]) && CarlHas(s1, [Local(1)])
    requires |s1.clients| == 2
    ensures Session(s, map[(0, 1) := Room({1}, 1), (5, 1) := Room({2}, 2)],
                    [OLD, NEW, Sub(5, 1, 2, 2, None)], [ANN, CARL, BOB])
    ensures CarlHas(s, [Local(1)]) && |s.clients| == 3 && s.clients[2].Key() == (5, 1)
  {
    var steps;
    steps, s := RegisterUndisturbed(s1, 5, 1, 9, "bob", 8, 2, true);
    ReachedOn(s1, steps, s);
    assert s.clients[0] == s1.clients[0] && s.clients[1] == s1.clients[1];
    assert s.clients[2].Key() == (5, 1);
  }

  /** How things stand with the three of them there, carl's hub having read to `old'` and `new'`. */
  ghost predicate AllHere(s: State, old': nat, new': nat, pushed: seq<Item>) {
    && Session(s, map[(0, 1) := Room({1}, 1), (5, 1) := Room({2}, 2)],
               [OLD.(cursor := old'), NEW.(cursor := new'), Sub(5, 1, 2, 2, None)], [ANN, CARL, BOB])
    && CarlHas(s, pushed) && |s.clients| == 3 && s.clients[2].Key() == (5, 1)
  }

  /** The hub's own messages are passed over. */
  lemma OwnPassedOver(s1: State, e: SubId, old': nat, new': nat) returns (s: State)
    requires e < 2 && AllHere(s1, old', new', [Local(1)]) && (if e == 0 then old' else new') < 2
    requires 1 <= new'
    ensures if e == 0 then AllHere(s, old' + 1, new', [Local(1)]) else AllHere(s, old', new' + 1, [Local(1)])
  {
    hide Enabled, Next, Reached;
    MayPassOver(s1, e, old', new');
    s := SkipOne(s1, e);
    ReachedNext(s1, Skip(e));
  }

  lemma MayPassOver(s: State, e: SubId, old': nat, new': nat)
    requires e < 2 && AllHere(s, old', new', [Local(1)]) && (if e == 0 then old' else new') < 2 && 1 <= new'
    ensures Enabled(s, Skip(e))
  {
    var p := s.subs[e].cursor;
    assert s.log[p] == p && TaskOf(s, OfSub(e)) == Waiting;
    assert s.handed[p] == [ANN, CARL, BOB][p] && Origin(s, p) == (0, 1);
  }

  /** A subscription gives carl bob's arrival. */
  lemma BobsArrivalRead(s1: State, e: SubId, old': nat, new': nat, pushed: seq<Item>) returns (s: State)
    requires e < 2 && AllHere(s1, old', new', pushed) && (if e == 0 then old' else new') == 2 && |pushed| < 8
    ensures AllHere(s, if e == 0 then 3 else old', if e == 0 then new' else 3, pushed + [Remote(2, e)])
  {
    hide Enabled, Next, Reached, Leads;
    MayReadBob(s1, e, old', new', pushed);
    var steps;
    steps, s := ConsumeUndisturbed(s1, e);
    ReachedOn(s1, steps, s);
    assert s.clients[1] == Served(s1.clients[1], Remote(2, e));
  }

  lemma MayReadBob(s: State, e: SubId, old': nat, new': nat, pushed: seq<Item>)
    requires e < 2 && AllHere(s, old', new', pushed) && (if e == 0 then old' else new') == 2
    ensures Enabled(s, Receive(e)) && Members(s.rooms, s.subs[e].Key()) == {1}
  {
    assert s.log[2] == 2 && TaskOf(s, OfSub(e)) == Waiting && s.handed[2] == BOB && Origin(s, 2) == (5, 1);
  }

  /** Carl has two copies of bob's arrival, one from each room's subscription. */
  lemma TwiceWhileDraining() returns (s: State)
    ensures Reached(s) && OtherHubDue(s, 1, 2) && RoomHasRead(s, 1, 2)
    ensures Hearing(s, s.clients[1].Key(), 2) == {0, 1} && Copies(s, s.clients[1].pushed, s.log[2]) == 2
  {
    s := AnnComesAndLeaves();
    s := CarlComes(s);
    s := BobComes(s);
    s := OwnPassedOver(s, 0, 0, 1);
    s := OwnPassedOver(s, 0, 1, 1);
    s := OwnPassedOver(s, 1, 2, 1);
    s := BobsArrivalRead(s, 0, 2, 2, [Local(1)]);
    s := BobsArrivalRead(s, 1, 3, 2, [Local(1)] + [Remote(2, 0)]);
    CopiesOfTwo(s);
  }

  lemma CopiesOfTwo(s: State)
    requires AllHere(s, 3, 3, [Local(1), Remote(2, 0), Remote(2, 1)])
    ensures Copies(s, s.clients[1].pushed, 2) == 2 && s.log[2] == 2
    ensures OtherHubDue(s, 1, 2) && RoomHasRead(s, 1, 2) && Hearing(s, s.clients[1].Key(), 2) == {0, 1}
  {
    assert s.log[1] == 1 && s.log[2] == 2 && s.handed[2] == BOB;
    var q := s.clients[1].pushed;
    assert q[..2] == [Local(1), Remote(2, 0)] && q[..2][..1] == [Local(1)] && [Local(1)][..0] == [];
    assert Copies(s, [Local(1)], 2) == 0;
    assert Copies(s, q[..2], 2) == 1;
  }
}
