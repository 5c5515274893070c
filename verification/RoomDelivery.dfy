/** What is in the send queues, what must still come, and in which order: invariants of the room
protocol, continued. */
module RoomDelivery {
  import opened Wrappers
  import opened RoomProtocol
  import opened RoomInvariants

  // ---- Nothing strange is queued, and nothing twice ----

  ghost predicate LocalOk(s: State, r: ClientId, m: MsgId)
    requires r < |s.clients|
  {
    && ValidMsg(s, m) && s.clients[r].since <= m && Origin(s, m) == s.clients[r].Key()
    && var task := TaskOf(s, OfClient(s.handed[m].sender));
       (task.Sending? && task.m == m ==> r !in task.todo)
  }

  ghost predicate RemoteOk(s: State, r: ClientId, p: nat, e: SubId)
    requires r < |s.clients|
  {
    && e < |s.subs| && s.subs[e].Key() == s.clients[r].Key()
    && s.subs[e].Hears(p) && p <= s.subs[e].cursor && p < |s.log| && ValidMsg(s, s.log[p]) && ForSub(s, e, p)
    && (p == s.subs[e].cursor ==> TaskOf(s, OfSub(e)).Sending? && r !in TaskOf(s, OfSub(e)).todo)
  }

  ghost predicate ItemOk(s: State, r: ClientId, it: Item)
    requires r < |s.clients|
  {
    match it
    case Direct => true
    case Local(m) => LocalOk(s, r, m)
    case Remote(p, e) => RemoteOk(s, r, p, e)
  }

  predicate SameSender(s: State, m: MsgId, n: MsgId) {
    m < |s.handed| && n < |s.handed| && s.handed[m].sender == s.handed[n].sender
  }

  /** The order in which two queued items may stand. */
  predicate InOrder(s: State, x: Item, y: Item) {
    && (x.Local? && y.Local? && SameSender(s, x.m, y.m) ==> x.m < y.m)
    && (x.Remote? && y.Remote? && x.sub == y.sub ==> x.p < y.p)
  }

  ghost predicate QueueOk(s: State, r: ClientId)
    requires r < |s.clients|
  {
    var q := s.clients[r].pushed;
    && (forall i | 0 <= i < |q| :: ItemOk(s, r, q[i]))
    && (forall i, j | 0 <= i < j < |q| :: InOrder(s, q[i], q[j]))
  }

  ghost predicate ItemsOk(s: State) {
    forall r | 0 <= r < |s.clients| :: QueueOk(s, r)
  }

  lemma LocalKept(s: State, a: Step, r: ClientId, m: MsgId)
    requires Sane(s) && TasksOk(s) && Enabled(s, a) && Extends(s, Next(s, a))
    requires r < |s.clients| && LocalOk(s, r, m)
    ensures LocalOk(Next(s, a), r, m)
  {
    var th := OfClient(s.handed[m].sender);
    if Actor(a) != Some(th) {
      OthersTasks(s, a, th);
    }
  }

  lemma RemoteKept(s: State, a: Step, r: ClientId, p: nat, e: SubId)
    requires Sane(s) && TasksOk(s) && Enabled(s, a) && Extends(s, Next(s, a))
    requires r < |s.clients| && RemoteOk(s, r, p, e)
    ensures RemoteOk(Next(s, a), r, p, e)
  {
    if Actor(a) != Some(OfSub(e)) {
      OthersTasks(s, a, OfSub(e));
    }
    assert SubTaskOk(s, e);
  }

  /** What a step adds to a queue, if anything. */
  ghost function Added(s: State, a: Step, r: ClientId): seq<Item>
    requires Enabled(s, a) && r < |s.clients|
  {
    if !s.clients[r].HasSpace() then []
    else if a.Offer? && a.r == r then [Mark(s, a.th, TaskOf(s, a.th).m)]
    else if a.Reply? && a.c == r then [Direct]
    else []
  }

  lemma QueuesGrow(s: State, a: Step, r: ClientId)
    requires Enabled(s, a) && r < |s.clients|
    ensures Next(s, a).clients[r].pushed == s.clients[r].pushed + Added(s, a, r)
  {}

  lemma NewItemOk(s: State, a: Step, r: ClientId)
    requires Sane(s) && TasksOk(s) && SubsOk(s) && QueuesOk(s) && Enabled(s, a) && r < |s.clients| && QueueOk(s, r)
    requires a.Offer? && a.r == r && s.clients[r].HasSpace()
    ensures var it := Mark(s, a.th, TaskOf(s, a.th).m);
            && ItemOk(Next(s, a), r, it)
            && forall i | 0 <= i < |s.clients[r].pushed| :: InOrder(s, s.clients[r].pushed[i], it)
  {
    assert TargetsOk(s, a.th);
    match a.th
    case OfClient(c) =>
      assert ClientTaskOk(s, c);
      forall i | 0 <= i < |s.clients[r].pushed| ensures InOrder(s, s.clients[r].pushed[i], Local(TaskOf(s, a.th).m)) {
        assert ItemOk(s, r, s.clients[r].pushed[i]);
      }
    case OfSub(e) =>
      assert SubTaskOk(s, e);
      forall i | 0 <= i < |s.clients[r].pushed|
        ensures InOrder(s, s.clients[r].pushed[i], Remote(s.subs[e].cursor, e)) {
        assert ItemOk(s, r, s.clients[r].pushed[i]);
      }
  }

  lemma QueueKept(s: State, a: Step, r: ClientId)
    requires Sane(s) && TasksOk(s) && SubsOk(s) && QueuesOk(s) && ItemsOk(s) && Enabled(s, a) && Extends(s, Next(s, a))
    requires r < |s.clients|
    ensures QueueOk(Next(s, a), r)
  {
    var s' := Next(s, a);
    var q, added := s.clients[r].pushed, Added(s, a, r);
    QueuesGrow(s, a, r);
    assert QueueOk(s, r);
    forall i | 0 <= i < |q| ensures ItemOk(s', r, q[i]) {
      assert ItemOk(s, r, q[i]);
      match q[i]
      case Direct =>
      case Local(m) => LocalKept(s, a, r, m);
      case Remote(p, e) => RemoteKept(s, a, r, p, e);
    }
    if added != [] && a.Offer? {
      NewItemOk(s, a, r);
    }
    OrderKept(s, s', r, q, added);
  }

  lemma OrderKept(s: State, s': State, r: ClientId, q: seq<Item>, added: seq<Item>)
    requires r < |s.clients| <= |s'.clients| && Extends(s, s') && |added| <= 1
    requires s.clients[r].pushed == q && s'.clients[r].pushed == q + added && QueueOk(s, r)
    requires forall i | 0 <= i < |q| :: ItemOk(s', r, q[i])
    requires added != [] ==> ItemOk(s', r, added[0]) && forall i | 0 <= i < |q| :: InOrder(s, q[i], added[0])
    requires added != [] && added[0].Local? ==> added[0].m < |s.handed|
    ensures QueueOk(s', r)
  {
    var q' := q + added;
    forall i | 0 <= i < |q'| ensures ItemOk(s', r, q'[i]) {}
    forall i, j | 0 <= i < j < |q'| ensures InOrder(s', q'[i], q'[j]) {
      assert ItemOk(s, r, q[i]);
      if j < |q| {
        assert InOrder(s, q[i], q[j]) && ItemOk(s, r, q[j]);
      } else {
        assert q'[j] == added[0] && InOrder(s, q[i], added[0]);
      }
    }
  }

  lemma KeepsItems(s: State, a: Step)
    requires Sane(s) && TasksOk(s) && SubsOk(s) && QueuesOk(s) && ItemsOk(s) && Enabled(s, a)
    ensures ItemsOk(Next(s, a))
  {
    StepExtends(s, a);
    forall r | 0 <= r < |Next(s, a).clients| ensures QueueOk(Next(s, a), r) {
      if r < |s.clients| {
        QueueKept(s, a, r);
      }
    }
  }

  // ---- What is due has come, is on its way, or the client was closed ----

  predicate HasOrClosed(s: State, r: ClientId, it: Item)
    requires r < |s.clients|
  {
    s.clients[r].closed || it in s.clients[r].pushed
  }

  /** Nobody in a broadcast's snapshot is forgotten. */
  ghost predicate SnapOk(s: State, th: Thread)
    requires ValidThread(s, th)
  {
    var task := TaskOf(s, th);
    task.Sending? ==> forall r | r in task.snap && r < |s.clients| && r !in task.todo && r !in task.slow ::
                        HasOrClosed(s, r, Mark(s, th, task.m))
  }

  predicate InSnapOf(s: State, th: Thread, m: MsgId, r: ClientId) {
    TaskOf(s, th).Sending? && TaskOf(s, th).m == m && r in TaskOf(s, th).snap
  }

  /** A message handed over on the client's own hub, after it was registered. */
  ghost predicate LocalDue(s: State, r: ClientId, m: MsgId) {
    && r < |s.clients| && s.clients[r].Registered() && ValidMsg(s, m)
    && s.clients[r].since <= m && Origin(s, m) == s.clients[r].Key()
  }

  ghost predicate LocalServed(s: State, r: ClientId, m: MsgId)
    requires r < |s.clients| && ValidMsg(s, m)
  {
    HasOrClosed(s, r, Local(m)) || InSnapOf(s, OfClient(s.handed[m].sender), m, r)
  }

  /** A message of another hub, published after the client was registered, which a subscription of its
  hub and document has come to: the room's own, or an emptied room's. */
  ghost predicate RemoteDue(s: State, r: ClientId, e: SubId, p: nat) {
    && r < |s.clients| && e < |s.subs| && s.clients[r].Registered()
    && s.subs[e].Key() == s.clients[r].Key()
    && s.clients[r].logAt <= p < |s.log| && p <= s.subs[e].cursor && ValidMsg(s, s.log[p]) && ForSub(s, e, p)
  }

  ghost predicate RemoteServed(s: State, r: ClientId, e: SubId, p: nat)
    requires r < |s.clients| && e < |s.subs| && p < |s.log|
  {
    if p < s.subs[e].cursor then HasOrClosed(s, r, Remote(p, e))
    else TaskOf(s, OfSub(e)).Sending? ==> InSnapOf(s, OfSub(e), s.log[p], r)
  }

  ghost predicate DeliveredOk(s: State) {
    && (forall th | ValidThread(s, th) :: SnapOk(s, th))
    && (forall r, m | LocalDue(s, r, m) :: LocalServed(s, r, m))
    && (forall r, e, p | RemoteDue(s, r, e, p) :: RemoteServed(s, r, e, p))
  }

  lemma HasKept(s: State, a: Step, r: ClientId, it: Item)
    requires Enabled(s, a) && Extends(s, Next(s, a)) && r < |s.clients| && HasOrClosed(s, r, it)
    ensures HasOrClosed(Next(s, a), r, it)
  {
    assert SameClient(s.clients[r], Next(s, a).clients[r]);
  }

  lemma SnapKept(s: State, a: Step, th: Thread)
    requires Sane(s) && TasksOk(s) && DeliveredOk(s) && Enabled(s, a) && Extends(s, Next(s, a))
    requires ValidThread(Next(s, a), th)
    ensures SnapOk(Next(s, a), th)
  {
    var s' := Next(s, a);
    if ValidThread(s, th) {
      assert SnapOk(s, th) && TargetsOk(s, th);
      if Actor(a) != Some(th) {
        OthersTasks(s, a, th);
      }
      var task := TaskOf(s', th);
      if task.Sending? && TaskOf(s, th).Sending? {
        forall r | r in task.snap && r < |s'.clients| && r !in task.todo && r !in task.slow
          ensures HasOrClosed(s', r, Mark(s', th, task.m))
        {
          SnapMemberKept(s, a, th, r);
        }
      }
    }
  }

  lemma SnapMemberKept(s: State, a: Step, th: Thread, r: ClientId)
    requires Sane(s) && TasksOk(s) && Enabled(s, a) && Extends(s, Next(s, a)) && ValidThread(s, th) && SnapOk(s, th)
    requires TargetsOk(s, th)
    requires TaskOf(s, th).Sending? && TaskOf(Next(s, a), th).Sending?
    requires Actor(a) != Some(th) ==> TaskOf(Next(s, a), th) == TaskOf(s, th)
    requires var task := TaskOf(Next(s, a), th); r in task.snap && r !in task.todo && r !in task.slow
    ensures r < |s.clients| && HasOrClosed(Next(s, a), r, Mark(Next(s, a), th, TaskOf(Next(s, a), th).m))
  {
    var old', new' := TaskOf(s, th), TaskOf(Next(s, a), th);
    if r !in old'.todo && r !in old'.slow {
      HasKept(s, a, r, Mark(s, th, old'.m));
    } else {
      assert (a.Offer? || a.Drop?) && a.th == th && a.r == r;
      QueuesGrow(s, a, r);
    }
  }

  lemma WasRegistered(s: State, a: Step, r: ClientId)
    requires RoomsOk(s) && Enabled(s, a) && r < |s.clients| && Next(s, a).clients[r].Registered()
    ensures s.clients[r].Registered() && InRoom(s, r)
  {
    if Quiet(a) {
      QuietKeepsStructure(s, a);
    }
    assert s.clients[r].Registered();
  }

  lemma StillRegistered(s: State, a: Step, r: ClientId)
    requires RoomsOk(s) && Enabled(s, a) && r < |s.clients| && Next(s, a).clients[r].Registered()
    ensures s.clients[r].Registered() && InRoom(s, r)
    ensures s.clients[r].Key() in Next(s, a).rooms
    ensures Next(s, a).rooms[s.clients[r].Key()].sub == s.rooms[s.clients[r].Key()].sub
  {
    WasRegistered(s, a, r);
    if Quiet(a) {
      QuietKeepsStructure(s, a);
    } else if a.Unregister? {
      OthersRoomStays(s, a, r);
    }
  }

  lemma OthersRoomStays(s: State, a: Step, r: ClientId)
    requires Enabled(s, a) && a.Unregister? && r < |s.clients| && InRoom(s, r) && Next(s, a).clients[r].Registered()
    ensures s.clients[r].Key() in Next(s, a).rooms
    ensures Next(s, a).rooms[s.clients[r].Key()].sub == s.rooms[s.clients[r].Key()].sub
  {
    assert r in s.rooms[s.clients[r].Key()].members - {a.c};
  }

  lemma LocalServedKept(s: State, a: Step, r: ClientId, m: MsgId)
    requires Sane(s) && RoomsOk(s) && TasksOk(s) && DeliveredOk(s) && Enabled(s, a) && Extends(s, Next(s, a))
    requires LocalDue(Next(s, a), r, m)
    ensures LocalServed(Next(s, a), r, m)
  {
    if r < |s.clients| {
      WasRegistered(s, a, r);
      assert SameClient(s.clients[r], Next(s, a).clients[r]);
      if m < |s.handed| {
        OldMessageServedKept(s, a, r, m);
      } else {
        NewMessageServed(s, a, r, m);
      }
    }
  }

  /** A message just handed over is on its way to everyone in its room. */
  lemma NewMessageServed(s: State, a: Step, r: ClientId, m: MsgId)
    requires Enabled(s, a) && |s.handed| <= m && r < |s.clients| && InRoom(s, r) && LocalDue(Next(s, a), r, m)
    ensures LocalServed(Next(s, a), r, m)
  {
    assert a.Begin?;
  }

  lemma OldMessageServedKept(s: State, a: Step, r: ClientId, m: MsgId)
    requires Sane(s) && TasksOk(s) && DeliveredOk(s) && Enabled(s, a) && Extends(s, Next(s, a))
    requires LocalDue(s, r, m)
    ensures LocalServed(Next(s, a), r, m)
  {
    assert LocalServed(s, r, m);
    var th := OfClient(s.handed[m].sender);
    assert SnapOk(s, th);
    if HasOrClosed(s, r, Local(m)) {
      HasKept(s, a, r, Local(m));
    } else if Actor(a) != Some(th) {
      OthersTasks(s, a, th);
    }
  }

  /** Whoever a message is due to through a subscription was in the room of its document before. */
  lemma DueThroughRoom(s: State, a: Step, r: ClientId, e: SubId, p: nat)
    requires Sane(s) && RoomsOk(s) && SubsOk(s) && TasksOk(s) && Enabled(s, a) && Extends(s, Next(s, a))
    requires RemoteDue(Next(s, a), r, e, p)
    ensures r < |s.clients| && s.clients[r].Registered() && InRoom(s, r)
    ensures e < |s.subs| && s.subs[e].Key() == s.clients[r].Key() && SubTaskOk(s, e)
  {
    NothingDueToNewcomer(s, a, r, e, p);
    WasRegistered(s, a, r);
    assert SameClient(s.clients[r], Next(s, a).clients[r]);
    NoNewSub(s, a, s.clients[r].Key(), e);
    assert SameSub(s.subs[e], Next(s, a).subs[e], |s.log|);
  }

  /** No subscription is made for a document that has a room. */
  lemma NoNewSub(s: State, a: Step, k: Key, e: SubId)
    requires Enabled(s, a) && k in s.rooms && e < |Next(s, a).subs| && Next(s, a).subs[e].Key() == k
    ensures e < |s.subs|
  {}

  lemma NothingDueToNewcomer(s: State, a: Step, r: ClientId, e: SubId, p: nat)
    requires Enabled(s, a) && RemoteDue(Next(s, a), r, e, p)
    ensures r < |s.clients|
  {}

  lemma RemoteServedKept(s: State, a: Step, r: ClientId, e: SubId, p: nat)
    requires Sane(s) && RoomsOk(s) && SubsOk(s) && TasksOk(s) && DeliveredOk(s) && Enabled(s, a)
    requires Extends(s, Next(s, a))
    requires RemoteDue(Next(s, a), r, e, p)
    ensures RemoteServed(Next(s, a), r, e, p)
  {
    hide Next, Enabled, Sane, RoomsOk, TasksOk, DeliveredOk, Extends, RemoteServed;
    DueThroughRoom(s, a, r, e, p);
    if p < |s.log| && p <= s.subs[e].cursor {
      PassedServedKept(s, a, r, e, p);
    } else {
      JustReachedServed(s, a, r, e, p);
    }
  }

  /** The cursor has come to an entry that it had not reached, and its goroutine waits. */
  lemma JustReachedServed(s: State, a: Step, r: ClientId, e: SubId, p: nat)
    requires Enabled(s, a) && e < |s.subs| && SubTaskOk(s, e) && s.subs[e].cursor <= |s.log|
    requires |s.log| <= p || s.subs[e].cursor < p
    requires RemoteDue(Next(s, a), r, e, p)
    ensures RemoteServed(Next(s, a), r, e, p)
  {
    if Actor(a) != Some(OfSub(e)) {
      OthersTasks(s, a, OfSub(e));
    }
  }

  lemma PassedServedKept(s: State, a: Step, r: ClientId, e: SubId, p: nat)
    requires Sane(s) && RoomsOk(s) && TasksOk(s) && DeliveredOk(s) && Enabled(s, a) && Extends(s, Next(s, a))
    requires e < |s.subs| && p < |s.log| && p <= s.subs[e].cursor && RemoteDue(Next(s, a), r, e, p)
    requires r < |s.clients| && s.clients[r].Registered() && InRoom(s, r) && SubTaskOk(s, e)
    requires s.subs[e].Key() == s.clients[r].Key()
    ensures RemoteServed(Next(s, a), r, e, p)
  {
    var s' := Next(s, a);
    var th := OfSub(e);
    assert SameClient(s.clients[r], s'.clients[r]) && SameSub(s.subs[e], s'.subs[e], |s.log|);
    assert ValidMsg(s, s.log[p]) && ForSub(s, e, p);
    assert RemoteDue(s, r, e, p) && RemoteServed(s, r, e, p);
    if p < s.subs[e].cursor {
      HasKept(s, a, r, Remote(p, e));
    } else if Actor(a) != Some(th) {
      OthersTasks(s, a, th);
    } else {
      assert SnapOk(s, th);
      OwnStepServes(s, a, r, e);
    }
  }

  /** The entry that a subscription has come to, when its own goroutine takes a step. */
  lemma OwnStepServes(s: State, a: Step, r: ClientId, e: SubId)
    requires Enabled(s, a) && Extends(s, Next(s, a)) && Actor(a) == Some(OfSub(e))
    requires r < |s.clients| && e < |s.subs| && s.subs[e].cursor < |s.log| && SubTaskOk(s, e) && SnapOk(s, OfSub(e))
    requires InRoom(s, r) && s.subs[e].Key() == s.clients[r].Key() && RemoteServed(s, r, e, s.subs[e].cursor)
    requires ValidMsg(s, s.log[s.subs[e].cursor]) && ForSub(s, e, s.subs[e].cursor)
    ensures RemoteServed(Next(s, a), r, e, s.subs[e].cursor)
  {
    if a.Finish? {
      HasKept(s, a, r, Remote(s.subs[e].cursor, e));
    }
  }

  lemma KeepsDelivered(s: State, a: Step)
    requires Sane(s) && RoomsOk(s) && SubsOk(s) && TasksOk(s) && DeliveredOk(s) && Enabled(s, a)
    ensures DeliveredOk(Next(s, a))
  {
    var s' := Next(s, a);
    StepExtends(s, a);
    forall th | ValidThread(s', th) ensures SnapOk(s', th) {
      SnapKept(s, a, th);
    }
    forall r, m | LocalDue(s', r, m) ensures LocalServed(s', r, m) {
      LocalServedKept(s, a, r, m);
    }
    forall r, e, p | RemoteDue(s', r, e, p) ensures RemoteServed(s', r, e, p) {
      RemoteServedKept(s, a, r, e, p);
    }
  }

  // ---- What was published before a client was registered had been handed over before ----

  ghost predicate SinceOk(s: State) {
    forall c, p | 0 <= c < |s.clients| && 0 <= p < s.clients[c].logAt && p < |s.log| :: s.log[p] < s.clients[c].since
  }

  lemma KeepsSince(s: State, a: Step)
    requires Sane(s) && SinceOk(s) && Enabled(s, a)
    ensures SinceOk(Next(s, a))
  {
    var s' := Next(s, a);
    StepExtends(s, a);
    forall c, p | 0 <= c < |s'.clients| && 0 <= p < s'.clients[c].logAt && p < |s'.log|
      ensures s'.log[p] < s'.clients[c].since {
      if c < |s.clients| {
        assert SameClient(s.clients[c], s'.clients[c]);
      }
    }
  }
}
