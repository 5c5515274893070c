/** The room protocol across nodes, step by step (ws-service/internal/hub/hub.go, client.go,
client_pumps.go).

Any number of hubs share one broker. A client's goroutine registers it, relays what it reads and
unregisters it; a room's goroutine broadcasts what its subscription delivers. The steps below are
what the mutex and the channel operations make atomic, and every interleaving of them is a run:

- `Register` and `Unregister` change the room map under the lock. Everything `Unregister` does after
  releasing it (the "left" broadcast, its publication, closing the client, closing the emptied
  room's subscription) is a step of its own, so a new room for the same document may already be open.
- A broadcast takes its snapshot of the room, then offers the message to one queue at a time, then
  closes the clients whose queue was full.
- Redis serialises publications, so one log holds them all; a subscription reads the log from the
  point where it was made, passes over other documents' entries, and once closed has nothing that was
  published later.

Messages are numbered in the order their broadcasts begin. */
module RoomProtocol {
  import opened Wrappers
  import opened Envelopes
  import opened RoomMaps

  type Node = nat
  type Doc = int
  type ClientId = nat
  type SubId = nat
  type MsgId = nat
  type Key = (Node, Doc)

  datatype Env = Env(sender: ClientId, body: Body)

  /** What a send queue holds: an acknowledgement or error, a message from the sender's own hub, or the
  log's entry `p` as read by subscription `sub`. */
  datatype Item = Direct | Local(m: MsgId) | Remote(p: nat, sub: SubId)

  type Rooms = map<Key, Room<ClientId, SubId>>

  /** How far a client's goroutine has come. `emptied` is the subscription of the room it was the last
  to leave, which it has yet to close. */
  datatype Phase =
    | Joining
    | Live
    | Leaving(emptied: Option<SubId>)
    | Closing(emptied: Option<SubId>)
    | Gone

  /** What a goroutine is in the middle of. */
  datatype Task =
    | Waiting
    | MustAnnounce
    | Sending(m: MsgId, snap: set<ClientId>, todo: set<ClientId>, slow: set<ClientId>)
    | Publishing(m: MsgId)

  /** `since` and `logAt` record how many messages had been handed over and how many published when the
  client was put into its room. The send queue is `pushed[written..]`. */
  datatype Client = Client(node: Node, doc: Doc, user: int, name: string, cap: nat,
                           since: nat, logAt: nat,
                           pushed: seq<Item>, written: nat, closed: bool, phase: Phase) {
    function Key(): Key { (node, doc) }
    predicate Registered() { phase.Joining? || phase.Live? }
    predicate HasSpace() { |pushed| - written < cap }
    function Emptied(): Option<SubId> {
      if phase.Leaving? || phase.Closing? then phase.emptied else None
    }
  }

  /** A subscription has the log from `start` on, and once it is closed nothing published after that:
  `end` is how long the log was when it was closed. */
  datatype Sub = Sub(node: Node, doc: Doc, start: nat, cursor: nat, end: Option<nat>) {
    function Key(): Key { (node, doc) }
    predicate Closed() { end.Some? }

    /** It was open when the log's entry `p` was published. */
    predicate Hears(p: nat) { start <= p && (end.Some? ==> p < end.value) }

    /** Closing takes effect once. */
    function Close(at: nat): Sub { if end.Some? then this else this.(end := Some(at)) }
  }

  datatype Thread = OfClient(c: ClientId) | OfSub(e: SubId)

  datatype State = State(rooms: Rooms, clients: seq<Client>, subs: seq<Sub>,
                         tasks: map<Thread, Task>, handed: seq<Env>, log: seq<MsgId>, lost: set<MsgId>)

  const INITIAL := State(map[], [], [], map[], [], [], {})

  // ---- Parts of the state ----

  predicate ValidThread(s: State, th: Thread) {
    match th
    case OfClient(c) => c < |s.clients|
    case OfSub(e) => e < |s.subs|
  }

  function TaskOf(s: State, th: Thread): Task {
    if th in s.tasks then s.tasks[th] else Waiting
  }

  /** The hub and document a thread broadcasts on. */
  function KeyOf(s: State, th: Thread): Key
    requires ValidThread(s, th)
  {
    match th
    case OfClient(c) => s.clients[c].Key()
    case OfSub(e) => s.subs[e].Key()
  }

  predicate ValidMsg(s: State, m: MsgId) {
    m < |s.handed| && s.handed[m].sender < |s.clients|
  }

  /** The hub and document a message was handed over on. */
  function Origin(s: State, m: MsgId): Key
    requires ValidMsg(s, m)
  {
    s.clients[s.handed[m].sender].Key()
  }

  /** What `th` puts into a queue. */
  function Mark(s: State, th: Thread, m: MsgId): Item
    requires ValidThread(s, th)
  {
    match th
    case OfClient(_) => Local(m)
    case OfSub(e) => Remote(s.subs[e].cursor, e)
  }

  // ---- Steps ----

  datatype Step =
    | Register(node: Node, doc: Doc, user: int, name: string, cap: nat, subAt: nat)
    | Begin(c: ClientId, body: Body)
    | Receive(e: SubId)
    | Skip(e: SubId)
    | Offer(th: Thread, r: ClientId)
    | Drop(th: Thread, r: ClientId)
    | Finish(th: Thread)
    | Publish(c: ClientId, ok: bool)
    | Reply(c: ClientId)
    | Unregister(c: ClientId)
    | CloseSelf(c: ClientId)
    | CloseSub(c: ClientId)
    | Write(c: ClientId)
    | Cut(c: ClientId)

  /** What a goroutine may begin to broadcast, by phase: its own arrival, what it relays for its
  client, its own departure. */
  predicate MayBegin(cl: Client, task: Task, body: Body) {
    match cl.phase
    case Joining => task.MustAnnounce? && body == Joined(cl.user, cl.name)
    case Live => task.Waiting? && (body.Edit? || body.Chat?)
    case Leaving(_) => task.MustAnnounce? && body == Left(cl.user, cl.name)
    case _ => false
  }

  predicate Enabled(s: State, a: Step) {
    match a
    case Register(_, _, _, _, cap, subAt) => 0 < cap && subAt <= |s.log|
    case Begin(c, body) => c < |s.clients| && MayBegin(s.clients[c], TaskOf(s, OfClient(c)), body)
    case Receive(e) =>
      && e < |s.subs| && TaskOf(s, OfSub(e)).Waiting? && s.subs[e].cursor < |s.log| && s.subs[e].Hears(s.subs[e].cursor)
      && ValidMsg(s, s.log[s.subs[e].cursor]) && ForSub(s, e, s.subs[e].cursor)
    case Skip(e) =>
      && e < |s.subs| && TaskOf(s, OfSub(e)).Waiting? && s.subs[e].cursor < |s.log| && s.subs[e].Hears(s.subs[e].cursor)
      && ValidMsg(s, s.log[s.subs[e].cursor]) && !ForSub(s, e, s.subs[e].cursor)
    case Offer(th, r) =>
      ValidThread(s, th) && r < |s.clients| && TaskOf(s, th).Sending? && r in TaskOf(s, th).todo
    case Drop(th, r) =>
      && ValidThread(s, th) && r < |s.clients| && TaskOf(s, th).Sending?
      && TaskOf(s, th).todo == {} && r in TaskOf(s, th).slow
    case Finish(th) =>
      ValidThread(s, th) && TaskOf(s, th).Sending? && TaskOf(s, th).todo == {} && TaskOf(s, th).slow == {}
    case Publish(c, _) => c < |s.clients| && TaskOf(s, OfClient(c)).Publishing?
    case Reply(c) => c < |s.clients| && s.clients[c].phase.Live? && TaskOf(s, OfClient(c)).Waiting?
    case Unregister(c) => c < |s.clients| && s.clients[c].phase.Live? && TaskOf(s, OfClient(c)).Waiting?
    case CloseSelf(c) => c < |s.clients| && s.clients[c].phase.Leaving? && TaskOf(s, OfClient(c)).Waiting?
    case CloseSub(c) =>
      && c < |s.clients| && s.clients[c].phase.Closing?
      && (s.clients[c].phase.emptied.Some? ==> s.clients[c].phase.emptied.value < |s.subs|)
    case Write(c) => c < |s.clients| && !s.clients[c].phase.Joining? && s.clients[c].written < |s.clients[c].pushed|
    case Cut(c) => c < |s.clients|
  }

  /** The log's entry `p` is for subscription `e`: the same document, from another node. */
  predicate ForSub(s: State, e: SubId, p: nat)
    requires e < |s.subs| && p < |s.log| && ValidMsg(s, s.log[p])
  {
    Origin(s, s.log[p]).1 == s.subs[e].doc && Origin(s, s.log[p]).0 != s.subs[e].node
  }

  function SetTask(s: State, th: Thread, task: Task): State {
    s.(tasks := s.tasks[th := task])
  }

  function SetClient(s: State, c: ClientId, cl: Client): State
    requires c < |s.clients|
  {
    s.(clients := s.clients[c := cl])
  }

  function SetSub(s: State, e: SubId, sub: Sub): State
    requires e < |s.subs|
  {
    s.(subs := s.subs[e := sub])
  }

  function DoRegister(s: State, node: Node, doc: Doc, user: int, name: string, cap: nat, subAt: nat): State {
    var c, e := |s.clients|, |s.subs|;
    var cl := Client(node, doc, user, name, cap, |s.handed|, |s.log|, [], 0, false, Joining);
    var opens := (node, doc) !in s.rooms;
    State(AddMember(s.rooms, (node, doc), c, e),
          s.clients + [cl],
          if opens then s.subs + [Sub(node, doc, subAt, subAt, None)] else s.subs,
          var tasks := s.tasks[OfClient(c) := MustAnnounce];
          if opens then tasks[OfSub(e) := Waiting] else tasks,
          s.handed, s.log, s.lost)
  }

  function DoBegin(s: State, c: ClientId, body: Body): State
    requires c < |s.clients|
  {
    var snap := Members(s.rooms, s.clients[c].Key());
    SetTask(s.(handed := s.handed + [Env(c, body)]), OfClient(c), Sending(|s.handed|, snap, snap, {}))
  }

  function DoReceive(s: State, e: SubId): State
    requires e < |s.subs| && s.subs[e].cursor < |s.log|
  {
    var snap := Members(s.rooms, s.subs[e].Key());
    SetTask(s, OfSub(e), Sending(s.log[s.subs[e].cursor], snap, snap, {}))
  }

  function DoOffer(s: State, th: Thread, r: ClientId): State
    requires ValidThread(s, th) && r < |s.clients| && TaskOf(s, th).Sending?
  {
    var task, cl := TaskOf(s, th), s.clients[r];
    if cl.HasSpace() then
      SetTask(SetClient(s, r, cl.(pushed := cl.pushed + [Mark(s, th, task.m)])), th, task.(todo := task.todo - {r}))
    else
      SetTask(s, th, task.(todo := task.todo - {r}, slow := task.slow + {r}))
  }

  function DoDrop(s: State, th: Thread, r: ClientId): State
    requires r < |s.clients| && TaskOf(s, th).Sending?
  {
    var task := TaskOf(s, th);
    SetTask(SetClient(s, r, s.clients[r].(closed := true)), th, task.(slow := task.slow - {r}))
  }

  function DoFinish(s: State, th: Thread): State
    requires ValidThread(s, th) && TaskOf(s, th).Sending?
  {
    match th
    case OfClient(_) => SetTask(s, th, Publishing(TaskOf(s, th).m))
    case OfSub(e) => SetTask(SetSub(s, e, s.subs[e].(cursor := s.subs[e].cursor + 1)), th, Waiting)
  }

  function DoPublish(s: State, c: ClientId, ok: bool): State
    requires c < |s.clients| && TaskOf(s, OfClient(c)).Publishing?
  {
    var m, cl := TaskOf(s, OfClient(c)).m, s.clients[c];
    var s1 := if ok then s.(log := s.log + [m]) else s.(lost := s.lost + {m});
    SetTask(SetClient(s1, c, if cl.phase.Joining? then cl.(phase := Live) else cl), OfClient(c), Waiting)
  }

  function DoUnregister(s: State, c: ClientId): State
    requires c < |s.clients|
  {
    var cl := s.clients[c];
    var k := cl.Key();
    if k !in s.rooms then
      // "client's room not found (should not happen)"
      SetClient(s, c, cl.(closed := true, phase := Gone))
    else
      var emptied := if s.rooms[k].members - {c} == {} then Some(s.rooms[k].sub) else None;
      SetTask(SetClient(s.(rooms := RemoveMember(s.rooms, k, c)), c, cl.(phase := Leaving(emptied))),
              OfClient(c), MustAnnounce)
  }

  function DoCloseSub(s: State, c: ClientId): State
    requires Enabled(s, CloseSub(c))
  {
    var cl := s.clients[c];
    var s1 := SetClient(s, c, cl.(phase := Gone));
    match cl.phase.emptied
    case None => s1
    case Some(e) => SetSub(s1, e, s1.subs[e].Close(|s.log|))
  }

  function Next(s: State, a: Step): State
    requires Enabled(s, a)
  {
    match a
    case Register(node, doc, user, name, cap, subAt) => DoRegister(s, node, doc, user, name, cap, subAt)
    case Begin(c, body) => DoBegin(s, c, body)
    case Receive(e) => DoReceive(s, e)
    case Skip(e) => SetSub(s, e, s.subs[e].(cursor := s.subs[e].cursor + 1))
    case Offer(th, r) => DoOffer(s, th, r)
    case Drop(th, r) => DoDrop(s, th, r)
    case Finish(th) => DoFinish(s, th)
    case Publish(c, ok) => DoPublish(s, c, ok)
    case Reply(c) =>
      if s.clients[c].HasSpace() then SetClient(s, c, s.clients[c].(pushed := s.clients[c].pushed + [Direct])) else s
    case Unregister(c) => DoUnregister(s, c)
    case CloseSelf(c) => SetClient(s, c, s.clients[c].(closed := true, phase := Closing(s.clients[c].phase.emptied)))
    case CloseSub(c) => DoCloseSub(s, c)
    case Write(c) => SetClient(s, c, s.clients[c].(written := s.clients[c].written + 1))
    case Cut(c) => SetClient(s, c, s.clients[c].(closed := true))
  }

  /** A run from the initial state. */
  ghost predicate Run(ss: seq<State>, steps: seq<Step>) {
    && |ss| == |steps| + 1 && ss[0] == INITIAL
    && forall i | 0 <= i < |steps| :: Enabled(ss[i], steps[i]) && ss[i + 1] == Next(ss[i], steps[i])
  }
}
