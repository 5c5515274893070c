/** What every step of the room protocol keeps. */
module RoomInvariants {
  import opened Wrappers
  import opened RoomProtocol

  // ---- The invariant, in parts ----

  ghost predicate Sane(s: State) {
    && (forall m | 0 <= m < |s.handed| :: s.handed[m].sender < |s.clients|)
    && (forall p | 0 <= p < |s.log| :: s.log[p] < |s.handed|)
    && (forall th | th in s.tasks :: ValidThread(s, th))
    && (forall c | 0 <= c < |s.clients| :: s.clients[c].since <= |s.handed| && s.clients[c].logAt <= |s.log|)
  }

  /** A mapped room is not empty, its subscription is open, and its members are the registered clients
  of its hub and document. */
  ghost predicate RoomOk(s: State, k: Key)
    requires k in s.rooms
  {
    var room := s.rooms[k];
    && room.members != {} && room.sub < |s.subs| && s.subs[room.sub].Key() == k && !s.subs[room.sub].Closed()
    && forall c | c in room.members :: c < |s.clients| && s.clients[c].Registered() && s.clients[c].Key() == k
  }

  ghost predicate InRoom(s: State, c: ClientId)
    requires c < |s.clients|
  {
    s.clients[c].Key() in s.rooms && c in s.rooms[s.clients[c].Key()].members
  }

  ghost predicate RoomsOk(s: State) {
    && (forall k | k in s.rooms :: RoomOk(s, k))
    && (forall c | 0 <= c < |s.clients| && s.clients[c].Registered() :: InRoom(s, c))
  }

  predicate IsRoomSub(s: State, e: SubId)
    requires e < |s.subs|
  {
    s.subs[e].Key() in s.rooms && s.rooms[s.subs[e].Key()].sub == e
  }

  /** A departing client owes the closing of `e`. */
  predicate Owes(s: State, c: ClientId, e: SubId) {
    c < |s.clients| && s.clients[c].Emptied() == Some(e)
  }

  ghost predicate DebtOk(s: State, c: ClientId, e: SubId)
    requires c < |s.clients|
  {
    e < |s.subs| && !s.subs[e].Closed() && s.subs[e].Key() == s.clients[c].Key() && !IsRoomSub(s, e)
  }

  /** A subscription has read no more of the log than was there, and than was there when it was closed. */
  predicate Within(sub: Sub, len: nat) {
    && sub.start <= sub.cursor <= len
    && (sub.Closed() ==> sub.cursor <= sub.end.value <= len)
  }

  /** An open subscription is a mapped room's, or exactly one departing client owes its closing. */
  ghost predicate SubsOk(s: State) {
    && (forall c | 0 <= c < |s.clients| && s.clients[c].Emptied().Some? :: DebtOk(s, c, s.clients[c].Emptied().value))
    && (forall c, d | 0 <= c < d < |s.clients| && s.clients[c].Emptied().Some? ::
          s.clients[c].Emptied() != s.clients[d].Emptied())
    && (forall e | 0 <= e < |s.subs| && !s.subs[e].Closed() :: IsRoomSub(s, e) || exists c :: Owes(s, c, e))
    && (forall e | 0 <= e < |s.subs| :: Within(s.subs[e], |s.log|))
  }

  ghost predicate QueuesOk(s: State) {
    forall c | 0 <= c < |s.clients| ::
      s.clients[c].written <= |s.clients[c].pushed| <= s.clients[c].written + s.clients[c].cap
  }

  /** `m` is its sender's last message so far. */
  ghost predicate Latest(s: State, m: MsgId)
    requires m < |s.handed|
  {
    forall n | m < n < |s.handed| :: s.handed[n].sender != s.handed[m].sender
  }

  predicate WorksOn(s: State, c: ClientId, m: MsgId) {
    var task := TaskOf(s, OfClient(c));
    (task.Sending? || task.Publishing?) && task.m == m
  }

  ghost predicate ClientTaskOk(s: State, c: ClientId)
    requires c < |s.clients|
  {
    match TaskOf(s, OfClient(c))
    case Waiting => !s.clients[c].phase.Joining?
    case MustAnnounce => s.clients[c].phase.Joining? || s.clients[c].phase.Leaving?
    case _ =>
      var m := TaskOf(s, OfClient(c)).m;
      && !s.clients[c].phase.Closing? && !s.clients[c].phase.Gone?
      && m < |s.handed| && s.handed[m].sender == c && Latest(s, m) && m !in s.log && m !in s.lost
  }

  ghost predicate SubTaskOk(s: State, e: SubId)
    requires e < |s.subs|
  {
    var task := TaskOf(s, OfSub(e));
    && (task.Waiting? || task.Sending?)
    && (task.Sending? ==>
          && s.subs[e].cursor < |s.log| && s.log[s.subs[e].cursor] == task.m && s.subs[e].Hears(s.subs[e].cursor)
          && ValidMsg(s, task.m) && ForSub(s, e, s.subs[e].cursor))
  }

  ghost predicate TargetsOk(s: State, th: Thread)
    requires ValidThread(s, th)
  {
    var task := TaskOf(s, th);
    task.Sending? ==>
      && task.todo !! task.slow && task.todo <= task.snap && task.slow <= task.snap
      && forall r | r in task.snap ::
           && r < |s.clients| && s.clients[r].Key() == KeyOf(s, th)
           && (th.OfClient? ==> s.clients[r].since <= task.m)
  }

  ghost predicate TasksOk(s: State) {
    && (forall c | 0 <= c < |s.clients| :: ClientTaskOk(s, c))
    && (forall e | 0 <= e < |s.subs| :: SubTaskOk(s, e))
    && (forall th | ValidThread(s, th) :: TargetsOk(s, th))
  }

  /** A sender's messages are published in order and none is published twice or both published and
  lost; a message that is neither is still being worked on. */
  ghost predicate LogOk(s: State) {
    && (forall p | 0 <= p < |s.log| :: s.log[p] < |s.handed| && s.log[p] !in s.lost)
    && (forall m | m in s.lost :: m < |s.handed|)
    && (forall p, q | 0 <= p < q < |s.log| ::
          s.handed[s.log[p]].sender == s.handed[s.log[q]].sender ==> s.log[p] < s.log[q])
    && (forall m | 0 <= m < |s.handed| :: m in s.log || m in s.lost || WorksOn(s, s.handed[m].sender, m))
  }

  // ---- What steps leave alone ----

  /** Records only grow: nobody changes hub, document or registration time, logs are appended to,
  closed stays closed. */
  ghost predicate Extends(s: State, s': State) {
    && |s.clients| <= |s'.clients| && |s.subs| <= |s'.subs| && |s.handed| <= |s'.handed| && |s.log| <= |s'.log|
    && (forall c | 0 <= c < |s.clients| :: SameClient(s.clients[c], s'.clients[c]))
    && (forall e | 0 <= e < |s.subs| :: SameSub(s.subs[e], s'.subs[e], |s.log|))
    && (forall m | 0 <= m < |s.handed| :: s'.handed[m] == s.handed[m])
    && (forall p | 0 <= p < |s.log| :: s'.log[p] == s.log[p])
  }

  predicate SameClient(cl: Client, cl': Client) {
    && cl'.Key() == cl.Key() && cl'.cap == cl.cap && cl'.since == cl.since && cl'.logAt == cl.logAt
    && cl'.user == cl.user && cl'.name == cl.name
    && cl.pushed <= cl'.pushed && cl.written <= cl'.written && (cl.closed ==> cl'.closed)
  }

  /** What a subscription hears of a log of length `len` is settled. */
  predicate SameSub(sub: Sub, sub': Sub, len: nat) {
    && sub'.Key() == sub.Key() && sub'.start == sub.start && sub.cursor <= sub'.cursor
    && (if sub.Closed() then sub'.end == sub.end else sub'.Closed() ==> len <= sub'.end.value)
  }

  lemma StepExtends(s: State, a: Step)
    requires Enabled(s, a)
    ensures Extends(s, Next(s, a))
  {
    ClientsExtend(s, a);
    SubsExtend(s, a);
  }

  lemma ClientsExtend(s: State, a: Step)
    requires Enabled(s, a)
    ensures |s.clients| <= |Next(s, a).clients|
    ensures forall c | 0 <= c < |s.clients| :: SameClient(s.clients[c], Next(s, a).clients[c])
  {
    forall c | 0 <= c < |s.clients| ensures SameClient(s.clients[c], Next(s, a).clients[c]) {
      ClientExtends(s, a, c);
    }
  }

  lemma ClientExtends(s: State, a: Step, c: ClientId)
    requires Enabled(s, a) && c < |s.clients|
    ensures c < |Next(s, a).clients| && SameClient(s.clients[c], Next(s, a).clients[c])
  {
    if a.Offer? || a.Reply? {
      QueueExtends(s, a, c);
    } else {
      RecordExtends(s, a, c);
    }
  }

  lemma QueueExtends(s: State, a: Step, c: ClientId)
    requires Enabled(s, a) && c < |s.clients| && (a.Offer? || a.Reply?)
    ensures c < |Next(s, a).clients| && SameClient(s.clients[c], Next(s, a).clients[c])
  {}

  lemma RecordExtends(s: State, a: Step, c: ClientId)
    requires Enabled(s, a) && c < |s.clients| && !a.Offer? && !a.Reply?
    ensures c < |Next(s, a).clients| && Next(s, a).clients[c].pushed == s.clients[c].pushed
    ensures SameClient(s.clients[c], Next(s, a).clients[c])
  {
    if Quiet(a) {
      QuietRecordExtends(s, a, c);
    } else {
      PhaseExtends(s, a, c);
    }
  }

  lemma QuietRecordExtends(s: State, a: Step, c: ClientId)
    requires Enabled(s, a) && c < |s.clients| && Quiet(a) && !a.Offer? && !a.Reply?
    ensures c < |Next(s, a).clients| && Next(s, a).clients[c].pushed == s.clients[c].pushed
    ensures SameClient(s.clients[c], Next(s, a).clients[c])
  {}

  lemma PhaseExtends(s: State, a: Step, c: ClientId)
    requires Enabled(s, a) && c < |s.clients| && !Quiet(a)
    ensures c < |Next(s, a).clients| && Next(s, a).clients[c].pushed == s.clients[c].pushed
    ensures SameClient(s.clients[c], Next(s, a).clients[c])
  {}

  lemma SubsExtend(s: State, a: Step)
    requires Enabled(s, a)
    ensures |s.subs| <= |Next(s, a).subs|
    ensures forall e | 0 <= e < |s.subs| :: SameSub(s.subs[e], Next(s, a).subs[e], |s.log|)
  {}

  /** The goroutine a step belongs to, where it has one. */
  function Actor(a: Step): Option<Thread> {
    match a
    case Begin(c, _) => Some(OfClient(c))
    case Publish(c, _) => Some(OfClient(c))
    case Unregister(c) => Some(OfClient(c))
    case Receive(e) => Some(OfSub(e))
    case Skip(e) => Some(OfSub(e))
    case Offer(th, _) => Some(th)
    case Drop(th, _) => Some(th)
    case Finish(th) => Some(th)
    case _ => None
  }

  lemma OthersTasks(s: State, a: Step, th: Thread)
    requires Enabled(s, a) && ValidThread(s, th) && Actor(a) != Some(th)
    ensures TaskOf(Next(s, a), th) == TaskOf(s, th)
    ensures th.OfSub? ==> Next(s, a).subs[th.e].cursor == s.subs[th.e].cursor
  {}

  /** The steps that touch neither the room map nor anyone's phase nor a subscription's closing. */
  predicate Quiet(a: Step) {
    !a.Register? && !a.Publish? && !a.Unregister? && !a.CloseSelf? && !a.CloseSub?
  }

  ghost predicate SameStructure(s: State, s': State) {
    && s'.rooms == s.rooms && |s'.clients| == |s.clients| && |s'.subs| == |s.subs|
    && (forall c | 0 <= c < |s.clients| ::
          s'.clients[c].Key() == s.clients[c].Key() && s'.clients[c].phase == s.clients[c].phase)
    && (forall e | 0 <= e < |s.subs| :: s'.subs[e].Key() == s.subs[e].Key() && s'.subs[e].end == s.subs[e].end)
  }

  lemma QuietKeepsStructure(s: State, a: Step)
    requires Enabled(s, a) && Quiet(a)
    ensures SameStructure(s, Next(s, a))
  {}

  // ---- Each part is kept by every step ----

  lemma KeepsSane(s: State, a: Step)
    requires Sane(s) && TasksOk(s) && Enabled(s, a)
    ensures Sane(Next(s, a))
  {
    var s' := Next(s, a);
    StepExtends(s, a);
    SaneMessages(s, a);
    forall th | th in s'.tasks ensures ValidThread(s', th) {
      SaneTask(s, a, th);
    }
    forall c | 0 <= c < |s'.clients| ensures s'.clients[c].since <= |s'.handed| && s'.clients[c].logAt <= |s'.log| {
      assert c < |s.clients| ==> SameClient(s.clients[c], s'.clients[c]);
    }
  }

  lemma SaneMessages(s: State, a: Step)
    requires Sane(s) && TasksOk(s) && Enabled(s, a) && Extends(s, Next(s, a))
    ensures forall m | 0 <= m < |Next(s, a).handed| :: Next(s, a).handed[m].sender < |Next(s, a).clients|
    ensures forall p | 0 <= p < |Next(s, a).log| :: Next(s, a).log[p] < |Next(s, a).handed|
  {
    if a.Publish? {
      assert ClientTaskOk(s, a.c);
    }
  }

  lemma SaneTask(s: State, a: Step, th: Thread)
    requires Sane(s) && Enabled(s, a) && Extends(s, Next(s, a)) && th in Next(s, a).tasks
    ensures ValidThread(Next(s, a), th)
  {
    if th in s.tasks {
      assert ValidThread(s, th);
    }
  }

  lemma KeepsQueues(s: State, a: Step)
    requires QueuesOk(s) && Enabled(s, a)
    ensures QueuesOk(Next(s, a))
  {
    if a.Offer? || a.Reply? {
      PushKeepsQueues(s, a);
    } else {
      RecordKeepsQueues(s, a);
    }
  }

  lemma PushKeepsQueues(s: State, a: Step)
    requires QueuesOk(s) && Enabled(s, a) && (a.Offer? || a.Reply?)
    ensures QueuesOk(Next(s, a))
  {}

  lemma RecordKeepsQueues(s: State, a: Step)
    requires QueuesOk(s) && Enabled(s, a) && !a.Offer? && !a.Reply?
    ensures QueuesOk(Next(s, a))
  {
    forall c | 0 <= c < |s.clients| ensures Next(s, a).clients[c].pushed == s.clients[c].pushed {
      RecordExtends(s, a, c);
    }
  }

  lemma KeepsRooms(s: State, a: Step)
    requires RoomsOk(s) && TasksOk(s) && SubsOk(s) && Enabled(s, a)
    ensures RoomsOk(Next(s, a))
  {
    if Quiet(a) {
      QuietKeepsStructure(s, a);
      StructureKeepsRooms(s, Next(s, a));
    } else if a.Register? {
      RegisterKeepsRooms(s, a);
    } else if a.Unregister? {
      UnregisterKeepsRooms(s, a);
    } else if a.Publish? {
      PublishKeepsRooms(s, a);
    } else {
      ClosingKeepsRooms(s, a);
    }
  }

  lemma StructureKeepsRooms(s: State, s': State)
    requires RoomsOk(s) && SameStructure(s, s')
    ensures RoomsOk(s')
  {
    assert SameRooms(s, s') by {
      assert forall k | k in s.rooms :: RoomOk(s, k);
    }
    SameRoomsKept(s, s');
  }

  /** Rooms, the subscriptions in them, and who is registered are as before. */
  ghost predicate SameRooms(s: State, s': State) {
    && s'.rooms == s.rooms && |s'.clients| == |s.clients| && |s'.subs| == |s.subs|
    && (forall c | 0 <= c < |s.clients| ::
          s'.clients[c].Key() == s.clients[c].Key() && s'.clients[c].Registered() == s.clients[c].Registered())
    && (forall k | k in s.rooms && s.rooms[k].sub < |s.subs| ::
          s'.subs[s.rooms[k].sub].Key() == s.subs[s.rooms[k].sub].Key()
          && s'.subs[s.rooms[k].sub].Closed() == s.subs[s.rooms[k].sub].Closed())
  }

  lemma SameRoomsKept(s: State, s': State)
    requires RoomsOk(s) && SameRooms(s, s')
    ensures RoomsOk(s')
  {
    forall k | k in s'.rooms ensures RoomOk(s', k) {
      assert RoomOk(s, k);
    }
    forall c | 0 <= c < |s'.clients| && s'.clients[c].Registered() ensures InRoom(s', c) {
      assert InRoom(s, c);
    }
  }

  lemma PublishKeepsRooms(s: State, a: Step)
    requires RoomsOk(s) && TasksOk(s) && SubsOk(s) && Enabled(s, a) && a.Publish?
    ensures RoomsOk(Next(s, a))
  {
    assert SameRooms(s, Next(s, a));
    SameRoomsKept(s, Next(s, a));
  }

  lemma ClosingKeepsRooms(s: State, a: Step)
    requires RoomsOk(s) && TasksOk(s) && SubsOk(s) && Enabled(s, a) && (a.CloseSelf? || a.CloseSub?)
    ensures RoomsOk(Next(s, a))
  {
    hide RoomsOk, SubsOk, TasksOk;
    if a.CloseSub? {
      CloseSubSpares(s, a);
    }
    assert SameRooms(s, Next(s, a));
    SameRoomsKept(s, Next(s, a));
  }

  lemma CloseSubSpares(s: State, a: Step)
    requires RoomsOk(s) && SubsOk(s) && Enabled(s, a) && a.CloseSub?
    ensures forall k | k in s.rooms && s.rooms[k].sub < |s.subs| ::
              Next(s, a).subs[s.rooms[k].sub] == s.subs[s.rooms[k].sub]
  {
    forall k | k in s.rooms && s.rooms[k].sub < |s.subs|
      ensures Next(s, a).subs[s.rooms[k].sub] == s.subs[s.rooms[k].sub]
    {
      assert RoomOk(s, k);
      assert s.clients[a.c].Emptied().Some? ==> DebtOk(s, a.c, s.clients[a.c].Emptied().value);
    }
  }

  lemma RegisterKeepsRooms(s: State, a: Step)
    requires RoomsOk(s) && a.Register? && Enabled(s, a)
    ensures RoomsOk(Next(s, a))
  {
    var s' := Next(s, a);
    var k := (a.node, a.doc);
    forall q | q in s'.rooms ensures RoomOk(s', q) {
      if q in s.rooms {
        assert RoomOk(s, q);
      }
    }
    forall c | 0 <= c < |s'.clients| && s'.clients[c].Registered() ensures InRoom(s', c) {
      if c < |s.clients| {
        assert s'.clients[c] == s.clients[c] && InRoom(s, c);
      }
    }
  }

  lemma UnregisterKeepsRooms(s: State, a: Step)
    requires RoomsOk(s) && a.Unregister? && Enabled(s, a)
    ensures RoomsOk(Next(s, a))
  {
    var s' := Next(s, a);
    assert InRoom(s, a.c);
    var k := s.clients[a.c].Key();
    forall q | q in s'.rooms ensures RoomOk(s', q) {
      assert RoomOk(s, q);
      assert q != k ==> a.c !in s.rooms[q].members;
    }
    forall c | 0 <= c < |s'.clients| && s'.clients[c].Registered() ensures InRoom(s', c) {
      assert InRoom(s, c);
      assert s.clients[c].Key() == k ==> c in s.rooms[k].members - {a.c};
    }
  }

  lemma KeepsSubs(s: State, a: Step)
    requires RoomsOk(s) && TasksOk(s) && SubsOk(s) && Enabled(s, a)
    ensures SubsOk(Next(s, a))
  {
    if Quiet(a) {
      QuietKeepsStructure(s, a);
      CursorsKept(s, a);
      StructureKeepsSubs(s, Next(s, a));
    } else if a.Register? {
      RegisterKeepsSubs(s, a);
    } else if a.Unregister? {
      UnregisterKeepsSubs(s, a);
    } else if a.CloseSub? {
      CloseSubKeepsSubs(s, a);
    } else {
      PhaseStepKeepsSubs(s, a);
    }
  }

  lemma CursorsKept(s: State, a: Step)
    requires SubsOk(s) && TasksOk(s) && Enabled(s, a)
    ensures forall e | 0 <= e < |Next(s, a).subs| ::
              Within(Next(s, a).subs[e], |Next(s, a).log|)
  {
    if a.Finish? && a.th.OfSub? {
      assert SubTaskOk(s, a.th.e);
    }
  }

  lemma StructureKeepsSubs(s: State, s': State)
    requires SubsOk(s) && SameStructure(s, s')
    requires forall e | 0 <= e < |s'.subs| :: Within(s'.subs[e], |s'.log|)
    ensures SubsOk(s')
  {
    forall e | 0 <= e < |s'.subs| && !s'.subs[e].Closed() ensures IsRoomSub(s', e) || exists c :: Owes(s', c, e) {
      if !IsRoomSub(s, e) {
        var c :| Owes(s, c, e);
        assert Owes(s', c, e);
      }
    }
  }

  lemma RegisterKeepsSubs(s: State, a: Step)
    requires SubsOk(s) && RoomsOk(s) && TasksOk(s) && Enabled(s, a) && a.Register?
    ensures SubsOk(Next(s, a))
  {
    RegisterDebts(s, a);
    RegisterWitnesses(s, a);
  }

  lemma RegisterDebts(s: State, a: Step)
    requires SubsOk(s) && RoomsOk(s) && Enabled(s, a) && a.Register?
    ensures var s' := Next(s, a);
            && (forall c | 0 <= c < |s'.clients| && s'.clients[c].Emptied().Some? ::
                  DebtOk(s', c, s'.clients[c].Emptied().value))
            && (forall c, d | 0 <= c < d < |s'.clients| && s'.clients[c].Emptied().Some? ::
                  s'.clients[c].Emptied() != s'.clients[d].Emptied())
  {
    var s' := Next(s, a);
    forall c | 0 <= c < |s'.clients| && s'.clients[c].Emptied().Some?
      ensures DebtOk(s', c, s'.clients[c].Emptied().value)
    {
      assert s'.clients[c] == s.clients[c] && DebtOk(s, c, s.clients[c].Emptied().value);
    }
  }

  lemma RegisterWitnesses(s: State, a: Step)
    requires SubsOk(s) && RoomsOk(s) && Enabled(s, a) && a.Register?
    ensures var s' := Next(s, a);
            && (forall e | 0 <= e < |s'.subs| && !s'.subs[e].Closed() :: IsRoomSub(s', e) || exists c :: Owes(s', c, e))
            && (forall e | 0 <= e < |s'.subs| :: Within(s'.subs[e], |s'.log|))
  {
    var s' := Next(s, a);
    forall e | 0 <= e < |s'.subs| && !s'.subs[e].Closed() ensures IsRoomSub(s', e) || exists c :: Owes(s', c, e) {
      if e < |s.subs| && !IsRoomSub(s, e) {
        var c :| Owes(s, c, e);
        assert Owes(s', c, e);
      }
    }
  }

  /** Publishing and closing oneself change neither rooms nor subscriptions nor what is owed. */
  lemma PhaseStepKeepsSubs(s: State, a: Step)
    requires SubsOk(s) && RoomsOk(s) && TasksOk(s) && Enabled(s, a) && (a.Publish? || a.CloseSelf?)
    ensures SubsOk(Next(s, a))
  {
    var s' := Next(s, a);
    forall c | 0 <= c < |s.clients|
      ensures s'.clients[c].Key() == s.clients[c].Key() && s'.clients[c].Emptied() == s.clients[c].Emptied()
    {}
    SameDebtsKept(s, s');
  }

  lemma SameDebtsKept(s: State, s': State)
    requires SubsOk(s) && s'.rooms == s.rooms && s'.subs == s.subs && |s.log| <= |s'.log| && |s'.clients| == |s.clients|
    requires forall c | 0 <= c < |s.clients| ::
               s'.clients[c].Key() == s.clients[c].Key() && s'.clients[c].Emptied() == s.clients[c].Emptied()
    ensures SubsOk(s')
  {
    forall e | 0 <= e < |s'.subs| && !s'.subs[e].Closed() ensures IsRoomSub(s', e) || exists c :: Owes(s', c, e) {
      if !IsRoomSub(s, e) {
        var c :| Owes(s, c, e);
        assert Owes(s', c, e);
      }
    }
  }

  lemma CloseSubKeepsSubs(s: State, a: Step)
    requires SubsOk(s) && RoomsOk(s) && TasksOk(s) && Enabled(s, a) && a.CloseSub?
    ensures SubsOk(Next(s, a))
  {
    var s' := Next(s, a);
    CloseSubDebts(s, a);
    forall e | 0 <= e < |s'.subs| && !s'.subs[e].Closed() ensures IsRoomSub(s', e) || exists c :: Owes(s', c, e) {
      if e < |s.subs| && !IsRoomSub(s, e) {
        var c :| Owes(s, c, e);
        assert Owes(s', c, e);
      }
    }
  }

  lemma CloseSubDebts(s: State, a: Step)
    requires SubsOk(s) && Enabled(s, a) && a.CloseSub?
    ensures var s' := Next(s, a);
            && (forall c | 0 <= c < |s'.clients| && s'.clients[c].Emptied().Some? ::
                  DebtOk(s', c, s'.clients[c].Emptied().value))
            && (forall c, d | 0 <= c < d < |s'.clients| && s'.clients[c].Emptied().Some? ::
                  s'.clients[c].Emptied() != s'.clients[d].Emptied())
  {
    var s' := Next(s, a);
    forall c | 0 <= c < |s'.clients| && s'.clients[c].Emptied().Some?
      ensures DebtOk(s', c, s'.clients[c].Emptied().value)
    {
      assert c != a.c && DebtOk(s, c, s.clients[c].Emptied().value);
      assert s'.clients[c] == s.clients[c] && s.clients[c].Emptied() != s.clients[a.c].Emptied();
    }
  }

  lemma UnregisterKeepsSubs(s: State, a: Step)
    requires RoomsOk(s) && SubsOk(s) && Enabled(s, a) && a.Unregister?
    ensures SubsOk(Next(s, a))
  {
    UnregisterWitnesses(s, a);
    UnregisterDebts(s, a);
  }

  lemma UnregisterDebts(s: State, a: Step)
    requires RoomsOk(s) && SubsOk(s) && Enabled(s, a) && a.Unregister?
    ensures var s' := Next(s, a);
            && (forall c | 0 <= c < |s'.clients| && s'.clients[c].Emptied().Some? ::
                  DebtOk(s', c, s'.clients[c].Emptied().value))
            && (forall c, d | 0 <= c < d < |s'.clients| && s'.clients[c].Emptied().Some? ::
                  s'.clients[c].Emptied() != s'.clients[d].Emptied())
  {
    var s' := Next(s, a);
    var k := s.clients[a.c].Key();
    assert InRoom(s, a.c) && RoomOk(s, k) && IsRoomSub(s, s.rooms[k].sub);
    forall c | 0 <= c < |s'.clients| && s'.clients[c].Emptied().Some?
      ensures DebtOk(s', c, s'.clients[c].Emptied().value) {
      assert c != a.c ==> DebtOk(s, c, s.clients[c].Emptied().value);
    }
  }

  lemma UnregisterWitnesses(s: State, a: Step)
    requires RoomsOk(s) && SubsOk(s) && Enabled(s, a) && a.Unregister?
    ensures var s' := Next(s, a);
            forall e | 0 <= e < |s'.subs| && !s'.subs[e].Closed() :: IsRoomSub(s', e) || exists c :: Owes(s', c, e)
  {
    var s' := Next(s, a);
    assert InRoom(s, a.c) && !s.clients[a.c].Emptied().Some?;
    forall e | 0 <= e < |s'.subs| && !s'.subs[e].Closed() ensures IsRoomSub(s', e) || exists c :: Owes(s', c, e) {
      if IsRoomSub(s, e) {
        assert !IsRoomSub(s', e) ==> Owes(s', a.c, e);
      } else {
        var c :| Owes(s, c, e);
        assert Owes(s', c, e);
      }
    }
  }

  lemma KeepsTasks(s: State, a: Step)
    requires Sane(s) && RoomsOk(s) && TasksOk(s) && LogOk(s) && Enabled(s, a)
    ensures TasksOk(Next(s, a))
  {
    var s' := Next(s, a);
    StepExtends(s, a);
    forall c | 0 <= c < |s'.clients| ensures ClientTaskOk(s', c) {
      ClientTaskKept(s, a, c);
    }
    forall e | 0 <= e < |s'.subs| ensures SubTaskOk(s', e) {
      SubTaskKept(s, a, e);
    }
    forall th | ValidThread(s', th) ensures TargetsOk(s', th) {
      TargetsKept(s, a, th);
    }
  }

  lemma ClientTaskKept(s: State, a: Step, c: ClientId)
    requires Sane(s) && TasksOk(s) && LogOk(s) && Enabled(s, a) && c < |Next(s, a).clients|
    ensures ClientTaskOk(Next(s, a), c)
  {
    if c < |s.clients| {
      assert ClientTaskOk(s, c);
      if Actor(a) == Some(OfClient(c)) {
        OwnTaskKept(s, a, c);
      } else if a.CloseSelf? || a.CloseSub? {
        ClosingKeepsTask(s, a, c);
      } else {
        OthersTasks(s, a, OfClient(c));
        OthersWork(s, a, c);
        WorkFrame(s, Next(s, a), c);
      }
    }
  }

  lemma ClosingKeepsTask(s: State, a: Step, c: ClientId)
    requires Enabled(s, a) && (a.CloseSelf? || a.CloseSub?) && c < |s.clients|
    requires ClientTaskOk(s, c) && ClientTaskOk(s, a.c)
    ensures ClientTaskOk(Next(s, a), c)
  {}

  /** Another goroutine's step hands over, publishes and loses only messages of its own. */
  ghost predicate NotWorkOf(s: State, s': State, c: ClientId) {
    && |s.handed| <= |s'.handed|
    && (forall m | 0 <= m < |s.handed| :: s'.handed[m] == s.handed[m])
    && (forall m | |s.handed| <= m < |s'.handed| :: s'.handed[m].sender != c)
    && (forall m | m in s'.log && m !in s.log :: m < |s.handed| && s.handed[m].sender != c)
    && (forall m | m in s'.lost && m !in s.lost :: m < |s.handed| && s.handed[m].sender != c)
  }

  lemma OthersWork(s: State, a: Step, c: ClientId)
    requires TasksOk(s) && Enabled(s, a) && c < |s.clients| && Actor(a) != Some(OfClient(c)) && !a.CloseSelf?
    requires !a.CloseSub?
    ensures NotWorkOf(s, Next(s, a), c)
    ensures Next(s, a).clients[c].phase == s.clients[c].phase
  {
    if a.Publish? {
      assert ClientTaskOk(s, a.c);
    }
  }

  lemma WorkFrame(s: State, s': State, c: ClientId)
    requires c < |s.clients| <= |s'.clients| && ClientTaskOk(s, c)
    requires TaskOf(s', OfClient(c)) == TaskOf(s, OfClient(c)) && s'.clients[c].phase == s.clients[c].phase
    requires NotWorkOf(s, s', c)
    ensures ClientTaskOk(s', c)
  {}

  lemma OwnTaskKept(s: State, a: Step, c: ClientId)
    requires Sane(s) && LogOk(s) && Enabled(s, a) && c < |s.clients| && ClientTaskOk(s, c)
    requires Actor(a) == Some(OfClient(c))
    ensures ClientTaskOk(Next(s, a), c)
  {}

  lemma SubTaskKept(s: State, a: Step, e: SubId)
    requires Sane(s) && TasksOk(s) && Enabled(s, a) && e < |Next(s, a).subs| && Extends(s, Next(s, a))
    ensures SubTaskOk(Next(s, a), e)
  {
    if e < |s.subs| {
      assert SubTaskOk(s, e);
      if Actor(a) != Some(OfSub(e)) {
        OthersTasks(s, a, OfSub(e));
        SubTaskFrame(s, Next(s, a), e);
      } else {
        OwnSubTaskKept(s, a, e);
      }
    }
  }

  lemma SubTaskFrame(s: State, s': State, e: SubId)
    requires Extends(s, s') && e < |s.subs| && SubTaskOk(s, e)
    requires TaskOf(s', OfSub(e)) == TaskOf(s, OfSub(e)) && s'.subs[e].cursor == s.subs[e].cursor
    ensures SubTaskOk(s', e)
  {
    if TaskOf(s, OfSub(e)).Sending? {
      var m := s.log[s.subs[e].cursor];
      assert s'.log[s.subs[e].cursor] == m && s'.handed[m] == s.handed[m];
      assert SameClient(s.clients[s.handed[m].sender], s'.clients[s.handed[m].sender]);
      assert SameSub(s.subs[e], s'.subs[e], |s.log|);
    }
  }

  lemma OwnSubTaskKept(s: State, a: Step, e: SubId)
    requires Enabled(s, a) && Extends(s, Next(s, a)) && e < |s.subs| && SubTaskOk(s, e) && Actor(a) == Some(OfSub(e))
    ensures SubTaskOk(Next(s, a), e)
  {}

  lemma TargetsKept(s: State, a: Step, th: Thread)
    requires Sane(s) && RoomsOk(s) && TasksOk(s) && Enabled(s, a) && ValidThread(Next(s, a), th)
    requires Extends(s, Next(s, a))
    ensures TargetsOk(Next(s, a), th)
  {
    if ValidThread(s, th) {
      assert TargetsOk(s, th);
      if Actor(a) != Some(th) {
        OthersTasks(s, a, th);
        TargetsFrame(s, Next(s, a), th);
      } else if a.Begin? || a.Receive? {
        FreshTargets(s, a, th);
      } else {
        OwnTargetsKept(s, a, th);
      }
    }
  }

  lemma TargetsFrame(s: State, s': State, th: Thread)
    requires Extends(s, s') && ValidThread(s, th) && TargetsOk(s, th) && TaskOf(s', th) == TaskOf(s, th)
    ensures TargetsOk(s', th)
  {}

  lemma FreshTargets(s: State, a: Step, th: Thread)
    requires Sane(s) && RoomsOk(s) && Enabled(s, a) && (a.Begin? || a.Receive?) && Actor(a) == Some(th)
    ensures ValidThread(s, th) && TargetsOk(Next(s, a), th)
  {
    if KeyOf(s, th) in s.rooms {
      assert RoomOk(s, KeyOf(s, th));
    }
  }

  lemma OwnTargetsKept(s: State, a: Step, th: Thread)
    requires Enabled(s, a) && Extends(s, Next(s, a)) && ValidThread(s, th) && TargetsOk(s, th) && Actor(a) == Some(th)
    requires !a.Begin? && !a.Receive?
    ensures TargetsOk(Next(s, a), th)
  {}

  lemma WorkKept(s: State, a: Step, c: ClientId, m: MsgId)
    requires Enabled(s, a) && c < |s.clients| && WorksOn(s, c, m) && !(a.Publish? && a.c == c)
    ensures WorksOn(Next(s, a), c, m)
  {}

  lemma QuietKeepsLog(s: State, a: Step)
    requires Sane(s) && LogOk(s) && Enabled(s, a) && !a.Publish? && !a.Begin?
    ensures LogOk(Next(s, a))
  {
    var s' := Next(s, a);
    assert s'.handed == s.handed && s'.log == s.log && s'.lost == s.lost;
    forall m | 0 <= m < |s'.handed| ensures m in s'.log || m in s'.lost || WorksOn(s', s'.handed[m].sender, m) {
      if WorksOn(s, s.handed[m].sender, m) {
        WorkKept(s, a, s.handed[m].sender, m);
      }
    }
  }

  lemma BeginKeepsLog(s: State, a: Step)
    requires Sane(s) && LogOk(s) && Enabled(s, a) && a.Begin?
    ensures LogOk(Next(s, a))
  {
    var s' := Next(s, a);
    assert s'.log == s.log && s'.lost == s.lost && s'.handed == s.handed + [Env(a.c, a.body)];
    assert forall p | 0 <= p < |s.log| :: s'.handed[s.log[p]] == s.handed[s.log[p]];
    forall m | 0 <= m < |s'.handed| ensures m in s'.log || m in s'.lost || WorksOn(s', s'.handed[m].sender, m) {
      if m < |s.handed| && WorksOn(s, s.handed[m].sender, m) {
        WorkKept(s, a, s.handed[m].sender, m);
      }
    }
  }

  lemma KeepsLog(s: State, a: Step)
    requires Sane(s) && TasksOk(s) && LogOk(s) && Enabled(s, a)
    ensures LogOk(Next(s, a))
  {
    if a.Publish? {
      PublishKeepsLog(s, a);
    } else if a.Begin? {
      BeginKeepsLog(s, a);
    } else {
      QuietKeepsLog(s, a);
    }
  }

  lemma PublishedInOrder(s: State, a: Step)
    requires Sane(s) && LogOk(s) && Enabled(s, a) && a.Publish? && ClientTaskOk(s, a.c)
    ensures var s' := Next(s, a);
            forall p, q | 0 <= p < q < |s'.log| ::
              s'.handed[s'.log[p]].sender == s'.handed[s'.log[q]].sender ==> s'.log[p] < s'.log[q]
  {
    var s' := Next(s, a);
    forall p, q | 0 <= p < q < |s'.log| && s'.handed[s'.log[p]].sender == s'.handed[s'.log[q]].sender
      ensures s'.log[p] < s'.log[q]
    {
      assert s'.log[p] == s.log[p] && s.log[p] in s.log;
    }
  }

  lemma PublishKeepsLog(s: State, a: Step)
    requires Sane(s) && TasksOk(s) && LogOk(s) && Enabled(s, a) && a.Publish?
    ensures LogOk(Next(s, a))
  {
    var s' := Next(s, a);
    var m0 := TaskOf(s, OfClient(a.c)).m;
    assert ClientTaskOk(s, a.c);
    PublishedInOrder(s, a);
    forall m | 0 <= m < |s'.handed| ensures m in s'.log || m in s'.lost || WorksOn(s', s'.handed[m].sender, m) {
      assert m in s.log || m in s.lost || WorksOn(s, s.handed[m].sender, m);
      if m == m0 && a.ok {
        assert s'.log[|s.log|] == m0;
      }
    }
  }
}
