/** The atomic steps put together again: when nothing interferes, the steps of one operation amount to
the whole operation, with the effect that HubRooms proves of the code. */
module RoomUndisturbed {
  import opened Wrappers
  import opened Envelopes
  import opened RoomMaps
  import opened RoomProtocol

  predicate StepTo(s: State, a: Step, s': State) {
    Enabled(s, a) && s' == Next(s, a)
  }

  ghost predicate Chain<S(!new), A>(next: (S, A, S) -> bool, s: S, steps: seq<A>, s': S)
    decreases |steps|
  {
    if steps == [] then s' == s else exists t :: next(s, steps[0], t) && Chain(next, t, steps[1..], s')
  }

  lemma {:induction false} ChainOn<S(!new), A>(next: (S, A, S) -> bool, s: S, xs: seq<A>, t: S, ys: seq<A>, u: S)
    requires Chain(next, s, xs, t) && Chain(next, t, ys, u)
    ensures Chain(next, s, xs + ys, u)
    decreases |xs|
  {
    if xs == [] {
      assert xs + ys == ys;
    } else {
      var s1 :| next(s, xs[0], s1) && Chain(next, s1, xs[1..], t);
      ChainOn(next, s1, xs[1..], t, ys, u);
      assert (xs + ys)[1..] == xs[1..] + ys;
    }
  }

  /** The steps lead from `s` to `s'`. */
  ghost predicate Leads(s: State, steps: seq<Step>, s': State) {
    Chain(StepTo, s, steps, s')
  }

  lemma LeadsFirst(s: State, a: Step, rest: seq<Step>, s': State)
    requires Enabled(s, a) && Leads(Next(s, a), rest, s')
    ensures Leads(s, [a] + rest, s')
  {
    assert StepTo(s, a, Next(s, a));
    assert ([a] + rest)[1..] == rest;
  }

  lemma LeadsLast(s: State, steps: seq<Step>, t: State, a: Step)
    requires Leads(s, steps, t) && Enabled(t, a)
    ensures Leads(s, steps + [a], Next(t, a))
  {
    LeadsFirst(t, a, [], Next(t, a));
    assert [a] + [] == [a];
    ChainOn(StepTo, s, steps, t, [a], Next(t, a));
  }

  /** Some run comes to this state. */
  ghost predicate Reached(s: State) {
    exists ss: seq<State>, steps: seq<Step> :: Run(ss, steps) && ss[|steps|] == s
  }

  lemma ReachedNext(s: State, a: Step)
    requires Reached(s) && Enabled(s, a)
    ensures Reached(Next(s, a))
  {
    var ss: seq<State>, steps: seq<Step> :| Run(ss, steps) && ss[|steps|] == s;
    assert Run(ss + [Next(s, a)], steps + [a]);
  }

  lemma {:induction false} ReachedOn(s: State, steps: seq<Step>, s': State)
    requires Reached(s) && Leads(s, steps, s')
    ensures Reached(s')
    decreases |steps|
  {
    if steps != [] {
      var t :| StepTo(s, steps[0], t) && Chain(StepTo, t, steps[1..], s');
      ReachedNext(s, steps[0]);
      ReachedOn(t, steps[1..], s');
    }
  }

  /** What offering an item does to a client, and what a whole broadcast does. */
  function Given(cl: Client, it: Item): Client {
    if cl.HasSpace() then cl.(pushed := cl.pushed + [it]) else cl
  }

  function Served(cl: Client, it: Item): Client {
    if cl.HasSpace() then cl.(pushed := cl.pushed + [it]) else cl.(closed := true)
  }

  ghost function Full(s: State, cs: set<ClientId>): set<ClientId> {
    set r | r in cs && r < |s.clients| && !s.clients[r].HasSpace()
  }

  ghost predicate Known(s: State, cs: set<ClientId>) {
    forall r | r in cs :: r < |s.clients|
  }

  lemma {:induction false} OfferAll(s: State, th: Thread) returns (steps: seq<Step>, s': State)
    requires ValidThread(s, th) && th in s.tasks && s.tasks[th].Sending? && Known(s, s.tasks[th].todo)
    ensures Leads(s, steps, s') && |s'.clients| == |s.clients|
    ensures var task := s.tasks[th];
            && s' == s.(clients := s'.clients,
                  tasks := s.tasks[th := task.(todo := {}, slow := task.slow + Full(s, task.todo))])
            && forall r | 0 <= r < |s.clients| ::
                 s'.clients[r] == if r in task.todo then Given(s.clients[r], Mark(s, th, task.m)) else s.clients[r]
    decreases s.tasks[th].todo
  {
    var task := s.tasks[th];
    if task.todo == {} {
      steps, s' := [], s;
      assert s.tasks[th := task] == s.tasks;
      assert task.slow + Full(s, {}) == task.slow;
    } else {
      var r :| r in task.todo;
      var s1 := OfferOne(s, th, r);
      steps, s' := OfferAll(s1, th);
      LeadsFirst(s, Offer(th, r), steps, s');
      steps := [Offer(th, r)] + steps;
      assert s1.tasks[th].slow + Full(s1, s1.tasks[th].todo) == task.slow + Full(s, task.todo);
    }
  }

  lemma OfferOne(s: State, th: Thread, r: ClientId) returns (s1: State)
    requires ValidThread(s, th) && th in s.tasks && s.tasks[th].Sending?
    requires r in s.tasks[th].todo && Known(s, s.tasks[th].todo)
    ensures Enabled(s, Offer(th, r)) && s1 == Next(s, Offer(th, r)) && |s1.clients| == |s.clients|
    ensures var task := s.tasks[th];
            && s1 == s.(clients := s1.clients,
                        tasks := s.tasks[th := task.(todo := task.todo - {r}, slow := task.slow + Full(s, {r}))])
            && s1.clients == s.clients[r := Given(s.clients[r], Mark(s, th, task.m))]
  {
    s1 := Next(s, Offer(th, r));
    assert Full(s, {r}) == if s.clients[r].HasSpace() then {} else {r};
    assert s.tasks[th].slow + {} == s.tasks[th].slow;
    assert s.clients[r := s.clients[r]] == s.clients;
  }

  lemma {:induction false} DropAll(s: State, th: Thread) returns (steps: seq<Step>, s': State)
    requires ValidThread(s, th) && th in s.tasks && s.tasks[th].Sending? && s.tasks[th].todo == {}
    requires Known(s, s.tasks[th].slow)
    ensures Leads(s, steps, s') && |s'.clients| == |s.clients|
    ensures var task := s.tasks[th];
            && s' == s.(clients := s'.clients, tasks := s.tasks[th := task.(slow := {})])
            && forall r | 0 <= r < |s.clients| ::
                 s'.clients[r] == if r in task.slow then s.clients[r].(closed := true) else s.clients[r]
    decreases s.tasks[th].slow
  {
    var task := s.tasks[th];
    if task.slow == {} {
      steps, s' := [], s;
      assert s.tasks[th := task] == s.tasks;
    } else {
      var r :| r in task.slow;
      var s1 := Next(s, Drop(th, r));
      assert s1 == s.(clients := s1.clients, tasks := s1.tasks);
      steps, s' := DropAll(s1, th);
      LeadsFirst(s, Drop(th, r), steps, s');
      steps := [Drop(th, r)] + steps;
    }
  }

  /** A broadcast from snapshot to end: everyone in the snapshot is served, nothing else changes. */
  lemma BroadcastAll(s: State, th: Thread) returns (steps: seq<Step>, s': State)
    requires ValidThread(s, th) && th in s.tasks && s.tasks[th].Sending? && s.tasks[th].slow == {}
    requires Known(s, s.tasks[th].todo)
    ensures Leads(s, steps, s') && |s'.clients| == |s.clients|
    ensures var task := s.tasks[th];
            && s' == s.(clients := s'.clients, tasks := s.tasks[th := task.(todo := {}, slow := {})])
            && forall r | 0 <= r < |s.clients| ::
                 s'.clients[r] == if r in task.todo then Served(s.clients[r], Mark(s, th, task.m)) else s.clients[r]
  {
    var offers, s1 := OfferAll(s, th);
    var drops;
    drops, s' := DropAll(s1, th);
    ChainOn(StepTo, s, offers, s1, drops, s');
    steps := offers + drops;
  }

  /** A client after a broadcast of its own, whose publication ends the wait of a client just registered. */
  function Relayed(cl: Client, served: bool, it: Item, own: bool): Client {
    var cl' := if served then Served(cl, it) else cl;
    if own && cl.phase.Joining? then cl'.(phase := Live) else cl'
  }

  ghost predicate RelayEffect(s: State, c: ClientId, body: Body, ok: bool, s': State)
    requires c < |s.clients|
  {
    var m, members := |s.handed|, Members(s.rooms, s.clients[c].Key());
    && s'.rooms == s.rooms && s'.subs == s.subs && s'.handed == s.handed + [Env(c, body)]
    && s'.log == (if ok then s.log + [m] else s.log) && s'.lost == (if ok then s.lost else s.lost + {m})
    && s'.tasks == s.tasks[OfClient(c) := Waiting]
    && |s'.clients| == |s.clients|
    && forall r: ClientId | r < |s.clients| :: s'.clients[r] == Relayed(s.clients[r], r in members, Local(m), r == c)
  }

  /** The first half of a relay, up to the end of the broadcast. */
  lemma BeginUndisturbed(s: State, c: ClientId, body: Body) returns (steps: seq<Step>, s': State)
    requires c < |s.clients| && MayBegin(s.clients[c], TaskOf(s, OfClient(c)), body)
    requires Known(s, Members(s.rooms, s.clients[c].Key()))
    ensures Leads(s, steps, s') && |s'.clients| == |s.clients|
    ensures var m, members := |s.handed|, Members(s.rooms, s.clients[c].Key());
            && s' == s.(clients := s'.clients, handed := s.handed + [Env(c, body)],
                  tasks := s.tasks[OfClient(c) := Sending(m, members, {}, {})])
            && forall r | 0 <= r < |s.clients| ::
                 s'.clients[r] == if r in members then Served(s.clients[r], Local(m)) else s.clients[r]
  {
    var s1 := Next(s, Begin(c, body));
    steps, s' := BroadcastAll(s1, OfClient(c));
    LeadsFirst(s, Begin(c, body), steps, s');
    steps := [Begin(c, body)] + steps;
    assert s'.tasks == s.tasks[OfClient(c) := Sending(|s.handed|, Members(s.rooms, s.clients[c].Key()), {}, {})];
  }

  /** `HandleClientEnvelope` and `notifyParticipantEvent`: broadcast here, then publish. */
  lemma RelayUndisturbed(s: State, c: ClientId, body: Body, ok: bool) returns (steps: seq<Step>, s': State)
    requires c < |s.clients| && MayBegin(s.clients[c], TaskOf(s, OfClient(c)), body)
    requires Known(s, Members(s.rooms, s.clients[c].Key()))
    ensures Leads(s, steps, s') && RelayEffect(s, c, body, ok, s')
  {
    var s1;
    steps, s1 := BeginUndisturbed(s, c, body);
    var last;
    last, s' := PublishUndisturbed(s1, c, ok);
    ChainOn(StepTo, s, steps, s1, last, s');
    steps := steps + last;
    assert s'.tasks == s.tasks[OfClient(c) := Waiting];
  }

  /** The second half of a relay, after the broadcast. */
  lemma PublishUndisturbed(s: State, c: ClientId, ok: bool) returns (steps: seq<Step>, s': State)
    requires c < |s.clients| && OfClient(c) in s.tasks
    requires var task := s.tasks[OfClient(c)]; task.Sending? && task.todo == task.slow == {}
    ensures Leads(s, steps, s')
    ensures var (m, cl) := (s.tasks[OfClient(c)].m, s.clients[c]);
            s' == s.(clients := s.clients[c := if cl.phase.Joining? then cl.(phase := Live) else cl],
                     tasks := s.tasks[OfClient(c) := Waiting],
                     log := if ok then s.log + [m] else s.log, lost := if ok then s.lost else s.lost + {m})
  {
    var s1 := Next(s, Finish(OfClient(c)));
    s' := Next(s1, Publish(c, ok));
    LeadsFirst(s1, Publish(c, ok), [], s');
    LeadsFirst(s, Finish(OfClient(c)), [Publish(c, ok)] + [], s');
    steps := [Finish(OfClient(c))] + ([Publish(c, ok)] + []);
    assert s'.tasks == s.tasks[OfClient(c) := Waiting];
  }

  /** `consumeRoom` on one message of another node: the room is served, the cursor moves on. */
  lemma ConsumeUndisturbed(s: State, e: SubId) returns (steps: seq<Step>, s': State)
    requires Enabled(s, Receive(e)) && Known(s, Members(s.rooms, s.subs[e].Key()))
    ensures Leads(s, steps, s') && |s'.clients| == |s.clients|
    ensures var members, p := Members(s.rooms, s.subs[e].Key()), s.subs[e].cursor;
            && s' == s.(clients := s'.clients, subs := s.subs[e := s.subs[e].(cursor := p + 1)],
                  tasks := s.tasks[OfSub(e) := Waiting])
            && forall r | 0 <= r < |s.clients| ::
                 s'.clients[r] == if r in members then Served(s.clients[r], Remote(p, e)) else s.clients[r]
  {
    var th := OfSub(e);
    var s1 := ReceiveOne(s, e);
    var mid, s2 := BroadcastAll(s1, th);
    LeadsFirst(s, Receive(e), mid, s2);
    s' := FinishReading(s2, e);
    steps := [Receive(e)] + mid;
    LeadsLast(s, steps, s2, Finish(th));
    steps := steps + [Finish(th)];
    assert s'.tasks == s.tasks[th := Waiting];
  }

  lemma ReceiveOne(s: State, e: SubId) returns (s1: State)
    requires Enabled(s, Receive(e))
    ensures var snap := Members(s.rooms, s.subs[e].Key());
            s1 == Next(s, Receive(e))
               == s.(tasks := s.tasks[OfSub(e) := Sending(s.log[s.subs[e].cursor], snap, snap, {})])
  {
    s1 := Next(s, Receive(e));
  }

  /** An entry that is not for the subscription is passed over. */
  lemma SkipOne(s: State, e: SubId) returns (s1: State)
    requires Enabled(s, Skip(e))
    ensures s1 == Next(s, Skip(e)) == s.(subs := s.subs[e := s.subs[e].(cursor := s.subs[e].cursor + 1)])
  {
    s1 := Next(s, Skip(e));
  }

  lemma FinishReading(s: State, e: SubId) returns (s1: State)
    requires e < |s.subs| && OfSub(e) in s.tasks
    requires var task := s.tasks[OfSub(e)]; task.Sending? && task.todo == task.slow == {}
    ensures Enabled(s, Finish(OfSub(e))) && s1 == Next(s, Finish(OfSub(e)))
    ensures s1 == s.(subs := s.subs[e := s.subs[e].(cursor := s.subs[e].cursor + 1)],
                     tasks := s.tasks[OfSub(e) := Waiting])
  {
    s1 := Next(s, Finish(OfSub(e)));
  }

  /** `Register`: the room has the client, opened if it was not there, and the join has gone out. */
  lemma RegisterUndisturbed(s: State, node: Node, doc: Doc, user: int, name: string, cap: nat, subAt: nat, ok: bool)
    returns (steps: seq<Step>, s': State)
    requires Enabled(s, Register(node, doc, user, name, cap, subAt)) && Known(s, Members(s.rooms, (node, doc)))
    ensures Leads(s, steps, s')
    ensures RelayEffect(DoRegister(s, node, doc, user, name, cap, subAt), |s.clients|, Joined(user, name), ok, s')
    ensures var c := |s.clients|;
            && s'.rooms == AddMember(s.rooms, (node, doc), c, |s.subs|)
            && s'.handed == s.handed + [Env(c, Joined(user, name))]
            && s'.log == (if ok then s.log + [|s.handed|] else s.log)
            && |s'.clients| == c + 1 && s'.clients[c].phase == Live && s'.clients[c].pushed == [Local(|s.handed|)]
            && forall r: ClientId | r < c && r in Members(s.rooms, (node, doc)) ::
                 s'.clients[r].pushed == Served(s.clients[r], Local(|s.handed|)).pushed
  {
    var first := Register(node, doc, user, name, cap, subAt);
    var s1, c := DoRegister(s, node, doc, user, name, cap, subAt), |s.clients|;
    assert Next(s, first) == s1;
    var rest;
    rest, s' := RelayUndisturbed(s1, c, Joined(user, name), ok);
    LeadsFirst(s, first, rest, s');
    steps := [first] + rest;
    assert s'.clients[c] == Relayed(s1.clients[c], true, Local(|s.handed|), true);
    assert forall r: ClientId | r < c :: s1.clients[r] == s.clients[r];
  }

  /** The last two steps of a departure. */
  lemma CloseUndisturbed(s: State, c: ClientId) returns (steps: seq<Step>, s': State)
    requires Enabled(s, CloseSelf(c)) && (s.clients[c].Emptied().Some? ==> s.clients[c].Emptied().value < |s.subs|)
    ensures Leads(s, steps, s')
    ensures var gone := s.clients[c].Emptied();
            s' == s.(clients := s.clients[c := s.clients[c].(closed := true, phase := Gone)],
                     subs := if gone.None? then s.subs else s.subs[gone.value := s.subs[gone.value].Close(|s.log|)])
  {
    var s1 := Next(s, CloseSelf(c));
    s' := Next(s1, CloseSub(c));
    LeadsFirst(s1, CloseSub(c), [], s');
    LeadsFirst(s, CloseSelf(c), [CloseSub(c)] + [], s');
    steps := [CloseSelf(c)] + ([CloseSub(c)] + []);
  }

  ghost predicate DepartureEffect(s: State, c: ClientId, ok: bool, s': State)
    requires c < |s.clients| && s.clients[c].Key() in s.rooms && s.rooms[s.clients[c].Key()].sub < |s.subs|
  {
    var cl, m := s.clients[c], |s.handed|;
    var k := cl.Key();
    var e := s.rooms[k].sub;
    && s'.rooms == RemoveMember(s.rooms, k, c)
    && s'.handed == s.handed + [Env(c, Left(cl.user, cl.name))]
    && s'.log == (if ok then s.log + [m] else s.log) && s'.lost == (if ok then s.lost else s.lost + {m})
    && s'.tasks == s.tasks[OfClient(c) := Waiting]
    && |s'.clients| == |s.clients| && s'.clients[c] == cl.(closed := true, phase := Gone)
    && (forall r: ClientId | r < |s.clients| && r != c ::
          s'.clients[r] == if r in s.rooms[k].members then Served(s.clients[r], Local(m)) else s.clients[r])
    && s'.subs == if s.rooms[k].members == {c} then s.subs[e := s.subs[e].Close(|s'.log|)] else s.subs
  }

  /** `Unregister`: the room loses the client, the others are told, the client is closed, and so is the
  subscription of a room that it leaves empty. */
  lemma UnregisterUndisturbed(s: State, c: ClientId, ok: bool) returns (steps: seq<Step>, s': State)
    requires Enabled(s, Unregister(c)) && s.clients[c].Key() in s.rooms && s.rooms[s.clients[c].Key()].sub < |s.subs|
    requires c in s.rooms[s.clients[c].Key()].members && Known(s, s.rooms[s.clients[c].Key()].members)
    ensures Leads(s, steps, s') && DepartureEffect(s, c, ok, s')
  {
    var cl := s.clients[c];
    var s1 := LeaveRoom(s, c);
    var relay, s2 := RelayUndisturbed(s1, c, Left(cl.user, cl.name), ok);
    LeadsFirst(s, Unregister(c), relay, s2);
    assert s2.clients[c] == Relayed(s1.clients[c], false, Local(|s.handed|), true) == s1.clients[c];
    var closing;
    closing, s' := CloseUndisturbed(s2, c);
    ChainOn(StepTo, s, [Unregister(c)] + relay, s2, closing, s');
    steps := [Unregister(c)] + relay + closing;
    DepartureComplete(s, c, ok, s1, s2, s');
  }

  /** Under the lock: out of the room, and out of the map if nobody is left. */
  lemma LeaveRoom(s: State, c: ClientId) returns (s1: State)
    requires Enabled(s, Unregister(c)) && s.clients[c].Key() in s.rooms
    ensures s1 == Next(s, Unregister(c))
    ensures s1 == s.(rooms := RemoveMember(s.rooms, s.clients[c].Key(), c), clients := s.clients[c := Departing(s, c)],
                     tasks := s.tasks[OfClient(c) := MustAnnounce])
    ensures c !in Members(s1.rooms, s.clients[c].Key())
  {
    s1 := Next(s, Unregister(c));
  }

  function Departing(s: State, c: ClientId): Client
    requires c < |s.clients| && s.clients[c].Key() in s.rooms
  {
    var room := s.rooms[s.clients[c].Key()];
    s.clients[c].(phase := Leaving(if room.members - {c} == {} then Some(room.sub) else None))
  }

  lemma DepartureComplete(s: State, c: ClientId, ok: bool, s1: State, s2: State, s': State)
    requires c < |s.clients| && s.clients[c].Key() in s.rooms && s.rooms[s.clients[c].Key()].sub < |s.subs|
    requires c in s.rooms[s.clients[c].Key()].members
    requires s1 == s.(rooms := RemoveMember(s.rooms, s.clients[c].Key(), c), clients := s.clients[c := Departing(s, c)],
                      tasks := s.tasks[OfClient(c) := MustAnnounce])
    requires RelayEffect(s1, c, Left(s.clients[c].user, s.clients[c].name), ok, s2) && s2.clients[c] == s1.clients[c]
    requires var gone := Departing(s, c).Emptied();
             s' == s2.(clients := s2.clients[c := s2.clients[c].(closed := true, phase := Gone)],
                       subs := if gone.None? then s2.subs
                               else s2.subs[gone.value := s2.subs[gone.value].Close(|s2.log|)])
    ensures DepartureEffect(s, c, ok, s')
  {
    var members := s.rooms[s.clients[c].Key()].members;
    assert members - {c} == {} <==> members == {c};
    assert s'.tasks == s.tasks[OfClient(c) := Waiting];
  }
}
