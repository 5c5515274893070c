/** Two sessions, reachable in the room protocol, in which the worker's state is not what one would
expect: a user struck off while still connected, and a document closed under a joining client. */
module WorkerScenarios {
  import opened Wrappers
  import opened Envelopes
  import opened RoomMaps
  import opened RoomProtocol
  import opened RoomUndisturbed
  import opened RoomTheorems
  import opened RoomAnnouncements
  import opened WorkerRuntime
  import opened WorkerSession
  import opened LateJoiner
  import opened WorkerTurns

  const ANN := Joined(7, "ann")
  const FAREWELL := Left(7, "ann")

  /** What the sessions need to know of a state: one hub, one document, ann's clients. */
  ghost predicate AnnsSession(s: State, rooms: Rooms, handed: seq<Env>) {
    && Reached(s) && s.rooms == rooms && s.handed == handed && s.lost == {}
    && |s.log| == |handed| && (forall i | 0 <= i < |s.log| :: s.log[i] == i)
    && (forall c: ClientId | c < |s.clients| ::
          s.clients[c].Key() == (0, 1) && s.clients[c].user == 7 && s.clients[c].name == "ann" && s.clients[c].cap == 8)
    && (forall th | th in s.tasks :: s.tasks[th] == Waiting)
  }

  /** Ann connects to an empty hub. */
  lemma AnnArrives() returns (s: State)
    ensures AnnsSession(s, map[(0, 1) := Room({0}, 0)], [Env(0, ANN)])
    ensures |s.clients| == 1 && s.clients[0].phase == Live && s.subs == [Sub(0, 1, 0, 0, None)]
  {
    assert Run([INITIAL], []);
    var steps;
    steps, s := RegisterUndisturbed(INITIAL, 0, 1, 7, "ann", 8, 0, true);
    ReachedOn(INITIAL, steps, s);
  }

  /** Ann connects a second time. */
  lemma AnnArrivesAgain(s1: State) returns (s: State)
    requires AnnsSession(s1, map[(0, 1) := Room({0}, 0)], [Env(0, ANN)])
    requires |s1.clients| == 1 && s1.clients[0].phase == Live && s1.subs == [Sub(0, 1, 0, 0, None)]
    ensures AnnsSession(s, map[(0, 1) := Room({0, 1}, 0)], [Env(0, ANN), Env(1, ANN)])
    ensures |s.clients| == 2 && s.clients[0].phase == s.clients[1].phase == Live && s.subs == s1.subs
  {
    var arrive;
    arrive, s := RegisterUndisturbed(s1, 0, 1, 7, "ann", 8, 1, true);
    ReachedOn(s1, arrive, s);
    SecondArrival(s1, s);
  }

  lemma SecondArrival(s1: State, s: State)
    requires AnnsSession(s1, map[(0, 1) := Room({0}, 0)], [Env(0, ANN)])
    requires |s1.clients| == 1 && s1.clients[0].phase == Live && s1.subs == [Sub(0, 1, 0, 0, None)] && Reached(s)
    requires RelayEffect(DoRegister(s1, 0, 1, 7, "ann", 8, 1), 1, ANN, true, s)
    ensures AnnsSession(s, map[(0, 1) := Room({0, 1}, 0)], [Env(0, ANN), Env(1, ANN)])
    ensures |s.clients| == 2 && s.clients[0].phase == s.clients[1].phase == Live && s.subs == s1.subs
  {
    var mid := DoRegister(s1, 0, 1, 7, "ann", 8, 1);
    assert {0} + {1} == {0, 1};
    assert s.rooms == mid.rooms == map[(0, 1) := Room({0, 1}, 0)];
    assert s.clients[0] == Relayed(mid.clients[0], true, Local(1), false);
    assert s.clients[1] == Relayed(mid.clients[1], true, Local(1), true);
  }

  /** The second connection ends. */
  lemma SecondConnectionEnds(s1: State) returns (s: State)
    requires AnnsSession(s1, map[(0, 1) := Room({0, 1}, 0)], [Env(0, ANN), Env(1, ANN)])
    requires |s1.clients| == 2 && s1.clients[0].phase == s1.clients[1].phase == Live && |s1.subs| == 1
    ensures AnnsSession(s, map[(0, 1) := Room({0}, 0)], [Env(0, ANN), Env(1, ANN), Env(1, FAREWELL)])
    ensures |s.clients| == 2 && s.clients[0].phase == Live
  {
    assert TaskOf(s1, OfClient(1)) == Waiting;
    var depart;
    depart, s := UnregisterUndisturbed(s1, 1, true);
    ReachedOn(s1, depart, s);
    SecondDeparture(s1, s);
  }

  lemma SecondDeparture(s1: State, s: State)
    requires AnnsSession(s1, map[(0, 1) := Room({0, 1}, 0)], [Env(0, ANN), Env(1, ANN)])
    requires |s1.clients| == 2 && s1.clients[0].phase == Live && |s1.subs| == 1 && Reached(s)
    requires DepartureEffect(s1, 1, true, s)
    ensures AnnsSession(s, map[(0, 1) := Room({0}, 0)], [Env(0, ANN), Env(1, ANN), Env(1, FAREWELL)])
    ensures |s.clients| == 2 && s.clients[0].phase == Live
  {
    assert {0, 1} - {1} == {0};
    assert s.clients[0] == Served(s1.clients[0], Local(2));
  }

  /** The worker began after the first arrival. Then it counts one client and lists no user, though ann is
  still there. */
  lemma SecondConnectionStruck() returns (s: State)
    ensures Reached(s) && StartsWithFirst(s, 1, 0, 1) && s.clients[0].Registered() && s.clients[0].user == 7
    ensures |s.log| == 3
    ensures var rt := Worked(s, 1, Initialized({}, 7, "ann"), 1, 3);
            rt.Some? && rt.value.userCount == 1 && rt.value.participants == map[]
  {
    var s1 := AnnArrives();
    var s2 := AnnArrivesAgain(s1);
    s := SecondConnectionEnds(s2);
    assert s.log[0] == 0 && s.log[1] == 1 && s.log[2] == 2;
    assert !SaysJoined(s, 1, 0) && !SaysJoined(s, 2, 0) && !SaysJoined(s, 0, 1);
    assert forall c: ClientId | c != 0 :: !JoinRead(s, c, 0, 1);
    StruckInTwo(s);
  }

  lemma StruckInTwo(s: State)
    requires |s.log| == 3 && s.log[1] == 1 && s.log[2] == 2 && OfDoc(s, 1, 1) && OfDoc(s, 2, 1)
    requires s.handed[1].body == ANN && s.handed[2].body == FAREWELL
    ensures Worked(s, 1, Initialized({}, 7, "ann"), 1, 3) == Some(Runtime(1, {}, [], map[]))
  {
    var init := Initialized({}, 7, "ann");
    assert map[7 := "ann"][7 := "ann"] == map[7 := "ann"] && map[7 := "ann"] - {7} == map[];
    assert Worked(s, 1, init, 1, 1) == Some(init);
    assert Worked(s, 1, init, 1, 2) == Handled(Some(init), ANN) == Some(Runtime(2, {}, [], map[7 := "ann"]));
    assert Worked(s, 1, init, 1, 3) == Handled(Worked(s, 1, init, 1, 2), FAREWELL);
  }

  // ---- A document closed under a joining client ----

  const EDIT := Edit(Some(9))

  /** Ann leaves; the room and its subscription go with her. */
  lemma AnnLeaves(s1: State) returns (s: State)
    requires AnnsSession(s1, map[(0, 1) := Room({0}, 0)], [Env(0, ANN)])
    requires |s1.clients| == 1 && s1.clients[0].phase == Live && s1.subs == [Sub(0, 1, 0, 0, None)]
    ensures AnnsSession(s, map[], [Env(0, ANN), Env(0, FAREWELL)])
    ensures |s.clients| == 1 && s.clients[0].phase == Gone && s.subs == [Sub(0, 1, 0, 0, Some(2))]
  {
    var depart;
    depart, s := UnregisterUndisturbed(s1, 0, true);
    ReachedOn(s1, depart, s);
  }

  /** How the session stands with ann back, her queue holding `pushed` and her room having read to `cursor`. */
  ghost predicate Back(s: State, handed: seq<Env>, pushed: seq<Item>, cursor: nat) {
    && AnnsSession(s, map[(0, 1) := Room({1}, 1)], handed)
    && |s.clients| == 2 && s.clients[0].phase == Gone && s.clients[1].phase == Live
    && s.clients[1].pushed == pushed && s.clients[1].written == 0 && !s.clients[1].closed
    && s.clients[1].since == s.clients[1].logAt == 2
    && s.subs == [Sub(0, 1, 0, 0, Some(2)), Sub(0, 1, 2, cursor, None)]
  }

  const RETURNED := [Env(0, ANN), Env(0, FAREWELL), Env(1, ANN)]
  const EDITED := [Env(0, ANN), Env(0, FAREWELL), Env(1, ANN), Env(1, EDIT)]

  /** Ann comes back: a new room, read by a new subscription from here on. */
  lemma AnnReturns(s1: State) returns (s: State)
    requires AnnsSession(s1, map[], [Env(0, ANN), Env(0, FAREWELL)])
    requires |s1.clients| == 1 && s1.clients[0].phase == Gone && s1.subs == [Sub(0, 1, 0, 0, Some(2))]
    ensures Back(s, RETURNED, [Local(2)], 2)
  {
    var arrive;
    arrive, s := RegisterUndisturbed(s1, 0, 1, 7, "ann", 8, 2, true);
    ReachedOn(s1, arrive, s);
    var new' := DoRegister(s1, 0, 1, 7, "ann", 8, 2).clients[1];
    assert s.clients[1] == Relayed(new', true, Local(2), true);
    assert s.clients[0] == s1.clients[0];
  }

  /** She edits. */
  lemma AnnEdits(s1: State) returns (s: State)
    requires Back(s1, RETURNED, [Local(2)], 2)
    ensures Back(s, EDITED, [Local(2), Local(3)], 2)
  {
    assert TaskOf(s1, OfClient(1)) == Waiting;
    var relay;
    relay, s := RelayUndisturbed(s1, 1, EDIT, true);
    ReachedOn(s1, relay, s);
    assert s.clients[1] == Relayed(s1.clients[1], true, Local(3), true) == Served(s1.clients[1], Local(3));
    assert s.clients[0] == s1.clients[0];
  }

  /** Her hub reads past its own messages. */
  lemma HubReadsOn(s1: State, cursor: nat) returns (s: State)
    requires Back(s1, EDITED, [Local(2), Local(3)], cursor) && 2 <= cursor < 4
    ensures Back(s, EDITED, [Local(2), Local(3)], cursor + 1)
  {
    MayReadOn(s1, cursor);
    s := SkipOne(s1, 1);
    ReachedNext(s1, Skip(1));
    assert s.subs == [Sub(0, 1, 0, 0, Some(2)), Sub(0, 1, 2, cursor + 1, None)];
  }

  lemma MayReadOn(s: State, cursor: nat)
    requires Back(s, EDITED, [Local(2), Local(3)], cursor) && 2 <= cursor < 4
    ensures Enabled(s, Skip(1))
  {
    assert s.log[cursor] == cursor && s.handed[cursor] == EDITED[cursor] && EDITED[cursor].sender < 2;
    assert ValidMsg(s, cursor) && Origin(s, cursor) == (0, 1) && s.subs[1].cursor == cursor;
    assert TaskOf(s, OfSub(1)) == Waiting;
  }

  lemma ClosedAtLeave(s: State)
    requires Back(s, EDITED, [Local(2), Local(3)], 4)
    ensures var init := Initialized({}, 7, "ann");
            Worked(s, 1, init, 1, 1) == Some(init) && Worked(s, 1, init, 1, 2).None? && Worked(s, 1, init, 1, 4).None?
  {
    var init := Initialized({}, 7, "ann");
    assert s.log[1] == 1 && OfDoc(s, 1, 1) && s.handed[1].body == FAREWELL;
    assert Worked(s, 1, init, 1, 2) == Handled(Some(init), FAREWELL) == None;
    assert Worked(s, 1, init, 1, 3).None?;
  }

  lemma WorkerStartedWithAnn(s: State)
    requires Back(s, EDITED, [Local(2), Local(3)], 4)
    ensures StartsWithFirst(s, 1, 0, 1)
  {
    assert s.log[0] == 0 && s.log[1] == 1 && s.log[2] == 2 && s.log[3] == 3;
    assert !SaysJoined(s, 1, 0) && !SaysJoined(s, 2, 0) && !SaysJoined(s, 3, 0) && !SaysJoined(s, 0, 1);
    assert !JoinRead(s, 0, 1, 4) && !JoinRead(s, 1, 0, 1);
  }

  lemma AllIsDrained(s: State)
    requires Back(s, EDITED, [Local(2), Local(3)], 4)
    ensures Drained(s)
  {}

  lemma JoinerCaughtUp(s: State)
    requires Back(s, EDITED, [Local(2), Local(3)], 4)
    ensures CaughtUp(s, 1, Initialized({}, 7, "ann"), 1, 1) && !Agree(s, 1, Initialized({}, 7, "ann"), 1, 1)
    ensures s.clients[1].doc == 1 && Hands(s, 3, 1, 9)
  {
    ClosedAtLeave(s);
    AllIsDrained(s);
    assert s.clients[1].Key() == (0, 1);
    forall m: MsgId, u: Update | Hands(s, m, 1, u) ensures m == 3 {
      assert m < 4 && s.handed[m] == EDITED[m];
    }
  }

  /** The worker, which began after the first arrival, answered the returning ann before it read her
  leave; reading that closes the document, and her edit is never applied. */
  lemma ClosedUnderJoiner() returns (s: State)
    ensures Reached(s) && |s.log| == 4
    ensures var init := Initialized({}, 7, "ann");
            && StartsWithFirst(s, 1, 0, 1) && CaughtUp(s, 1, init, 1, 1) && s.clients[1].doc == 1
            && !Agree(s, 1, init, 1, 1) && Worked(s, 1, init, 1, 2).None? && Worked(s, 1, init, 1, 4).None?
            && Hands(s, 3, 1, 9)
  {
    s := AnnArrives();
    s := AnnLeaves(s);
    s := AnnReturns(s);
    s := AnnEdits(s);
    s := HubReadsOn(s, 2);
    s := HubReadsOn(s, 3);
    ClosedAtLeave(s);
    WorkerStartedWithAnn(s);
    JoinerCaughtUp(s);
  }

  /** Had the worker been given her leave and her new arrival in one turn, the document would have stayed
  open, with her edit. */
  lemma OpenInOneTurn() returns (s: State)
    ensures Reached(s) && |s.log| == 4 && StartsWithFirst(s, 1, 0, 1)
    ensures var init := Initialized({}, 7, "ann");
            && Worked(s, 1, init, 1, 4).None?
            && Turned(s, 1, init, 1, 4, {3, 4}) == Some(Runtime(1, {9}, [], map[7 := "ann"]))
  {
    s := AnnArrives();
    s := AnnLeaves(s);
    s := AnnReturns(s);
    s := AnnEdits(s);
    s := HubReadsOn(s, 2);
    s := HubReadsOn(s, 3);
    ClosedAtLeave(s);
    WorkerStartedWithAnn(s);
    TurnTaken(s);
  }

  lemma TurnTaken(s: State)
    requires Back(s, EDITED, [Local(2), Local(3)], 4)
    ensures Turned(s, 1, Initialized({}, 7, "ann"), 1, 4, {3, 4}) == Some(Runtime(1, {9}, [], map[7 := "ann"]))
  {
    var init, ends := Initialized({}, 7, "ann"), {3, 4};
    assert map[7 := "ann"] - {7} == map[] && {} + {9} == {9};
    TurnOn(s, 1, FAREWELL);
    assert Turned(s, 1, init, 1, 2, ends) == Some(Runtime(0, {}, [], map[]));
    TurnOn(s, 2, ANN);
    assert Turned(s, 1, init, 1, 3, ends) == Some(Runtime(1, {}, [], map[7 := "ann"]));
    TurnOn(s, 3, EDIT);
  }

  lemma TurnOn(s: State, p: nat, body: Body)
    requires Back(s, EDITED, [Local(2), Local(3)], 4) && p < 4 && body == EDITED[p].body
    ensures OfDoc(s, p, 1) && s.handed[s.log[p]].body == body
  {
    assert s.log[p] == p && s.handed[p] == EDITED[p];
  }
}
