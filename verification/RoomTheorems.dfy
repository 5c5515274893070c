/** What every run of the room protocol guarantees. */
module RoomTheorems {
  import opened RoomProtocol
  import opened RoomInvariants
  import opened RoomDelivery

  ghost predicate Inv(s: State) {
    && Sane(s) && RoomsOk(s) && SubsOk(s) && QueuesOk(s) && TasksOk(s) && LogOk(s)
    && ItemsOk(s) && DeliveredOk(s) && SinceOk(s)
  }

  lemma InitialInv()
    ensures Inv(INITIAL)
  {}

  lemma StepKeepsInv(s: State, a: Step)
    requires Inv(s) && Enabled(s, a)
    ensures Inv(Next(s, a))
  {
    KeepsSane(s, a);
    KeepsRooms(s, a);
    KeepsSubs(s, a);
    KeepsQueues(s, a);
    KeepsTasks(s, a);
    KeepsLog(s, a);
    KeepsItems(s, a);
    KeepsDelivered(s, a);
    KeepsSince(s, a);
  }

  lemma {:induction false} ReachableInv(ss: seq<State>, steps: seq<Step>, n: nat)
    requires Run(ss, steps) && n <= |steps|
    ensures Inv(ss[n])
  {
    if n == 0 {
      InitialInv();
    } else {
      ReachableInv(ss, steps, n - 1);
      StepKeepsInv(ss[n - 1], steps[n - 1]);
    }
  }

  // ---- Counting copies ----

  predicate Carries(s: State, it: Item, m: MsgId) {
    it == Local(m) || (it.Remote? && it.p < |s.log| && s.log[it.p] == m)
  }

  /** How often a queue was given message `m`. */
  function Copies(s: State, q: seq<Item>, m: MsgId): nat {
    if q == [] then 0
    else Copies(s, q[..|q| - 1], m) + (if Carries(s, q[|q| - 1], m) then 1 else 0)
  }

  /** A queue has at least as many copies as it has different items with the message. */
  lemma {:induction false} CopiesAtLeast(s: State, q: seq<Item>, m: MsgId, items: set<Item>)
    requires forall it | it in items :: it in q && Carries(s, it, m)
    ensures |items| <= Copies(s, q, m)
  {
    if q == [] {
      assert items == {};
    } else {
      var init, last := q[..|q| - 1], q[|q| - 1];
      assert q == init + [last];
      CopiesAtLeast(s, init, m, items - {last});
      assert last !in items ==> items - {last} == items;
    }
  }

  /** Copies that differ from one another are no more than the forms a copy can take. */
  lemma {:induction false} CopiesAtMost(s: State, q: seq<Item>, m: MsgId, forms: set<Item>)
    requires forall i | 0 <= i < |q| && Carries(s, q[i], m) :: q[i] in forms
    requires forall i, j | 0 <= i < j < |q| && Carries(s, q[i], m) && Carries(s, q[j], m) :: q[i] != q[j]
    ensures Copies(s, q, m) <= |forms|
  {
    if q != [] {
      var last := q[|q| - 1];
      if Carries(s, last, m) {
        CopiesAtMost(s, q[..|q| - 1], m, forms - {last});
      } else {
        CopiesAtMost(s, q[..|q| - 1], m, forms);
      }
    }
  }

  lemma CopiesDiffer(s: State, r: ClientId, m: MsgId)
    requires Inv(s) && r < |s.clients|
    ensures var q := s.clients[r].pushed;
            forall i, j | 0 <= i < j < |q| && Carries(s, q[i], m) && Carries(s, q[j], m) :: q[i] != q[j]
  {
    var q := s.clients[r].pushed;
    assert QueueOk(s, r);
    forall i, j | 0 <= i < j < |q| && Carries(s, q[i], m) && Carries(s, q[j], m) ensures q[i] != q[j] {
      assert ItemOk(s, r, q[i]) && InOrder(s, q[i], q[j]);
    }
  }

  // ---- No loss, bounded copies ----

  /** A message of the client's own hub, handed over since it was registered: once its sender has
  finished broadcasting it, an open client has been given exactly one copy. */
  lemma OwnHubExactlyOnce(ss: seq<State>, steps: seq<Step>, n: nat, r: ClientId, m: MsgId)
    requires Run(ss, steps) && n <= |steps|
    requires var s := ss[n]; LocalDue(s, r, m) && !s.clients[r].closed && !WorksOn(s, s.handed[m].sender, m)
    ensures Copies(ss[n], ss[n].clients[r].pushed, m) == 1
  {
    var s := ss[n];
    var q := s.clients[r].pushed;
    ReachableInv(ss, steps, n);
    assert LocalServed(s, r, m);
    CopiesAtLeast(s, q, m, {Local(m)});
    forall i | 0 <= i < |q| && Carries(s, q[i], m) ensures q[i] in {Local(m)} {
      assert QueueOk(s, r) && ItemOk(s, r, q[i]);
    }
    CopiesDiffer(s, r, m);
    CopiesAtMost(s, q, m, {Local(m)});
  }

  /** A message of another hub that is due to an open client: handed over for its document since the
  client was registered, and published. */
  ghost predicate OtherHubDue(s: State, r: ClientId, p: nat) {
    && r < |s.clients| && s.clients[r].Registered() && !s.clients[r].closed
    && p < |s.log| && ValidMsg(s, s.log[p]) && s.clients[r].since <= s.log[p]
    && Origin(s, s.log[p]).1 == s.clients[r].doc && Origin(s, s.log[p]).0 != s.clients[r].node
  }

  /** The subscriptions of a hub for a document that have handed the log's entry `p` on. */
  function Passed(s: State, k: Key, p: nat): set<SubId> {
    set e | 0 <= e < |s.subs| && s.subs[e].Key() == k && s.subs[e].start <= p < s.subs[e].cursor
  }

  /** Those that are handing it on. */
  function Passing(s: State, k: Key, p: nat): set<SubId> {
    set e | 0 <= e < |s.subs| && s.subs[e].Key() == k && s.subs[e].cursor == p && TaskOf(s, OfSub(e)).Sending?
  }

  /** Those that were open when it was published. */
  function Hearing(s: State, k: Key, p: nat): set<SubId> {
    set e | 0 <= e < |s.subs| && s.subs[e].Key() == k && s.subs[e].Hears(p)
  }

  function AsItems(p: nat, subs: set<SubId>): set<Item> {
    set e | e in subs :: Remote(p, e)
  }

  /** An open client has been given one copy of another hub's message by each subscription of its hub that
  has handed it on, perhaps one by each that is doing so, and no other. Nothing published after a
  subscription was closed comes through it. */
  lemma OtherHubCopies(ss: seq<State>, steps: seq<Step>, n: nat, r: ClientId, p: nat)
    requires Run(ss, steps) && n <= |steps| && OtherHubDue(ss[n], r, p)
    ensures var s := ss[n];
            var k := s.clients[r].Key();
            && |Passed(s, k, p)| <= Copies(s, s.clients[r].pushed, s.log[p]) <= |Passed(s, k, p) + Passing(s, k, p)|
            && Passed(s, k, p) + Passing(s, k, p) <= Hearing(s, k, p)
  {
    var s := ss[n];
    ReachableInv(ss, steps, n);
    AtLeastPassed(s, r, p);
    AtMostTaken(s, r, p);
    TakenWereHeard(s, s.clients[r].Key(), p);
  }

  lemma AtLeastPassed(s: State, r: ClientId, p: nat)
    requires Inv(s) && OtherHubDue(s, r, p)
    ensures |Passed(s, s.clients[r].Key(), p)| <= Copies(s, s.clients[r].pushed, s.log[p])
  {
    var q, passed := s.clients[r].pushed, Passed(s, s.clients[r].Key(), p);
    forall it | it in AsItems(p, passed) ensures it in q && Carries(s, it, s.log[p]) {
      assert RemoteDue(s, r, it.sub, p) && RemoteServed(s, r, it.sub, p);
    }
    CopiesAtLeast(s, q, s.log[p], AsItems(p, passed));
    ImageSize(passed, e => Remote(p, e), AsItems(p, passed));
  }

  lemma AtMostTaken(s: State, r: ClientId, p: nat)
    requires Inv(s) && OtherHubDue(s, r, p)
    ensures var k := s.clients[r].Key();
            Copies(s, s.clients[r].pushed, s.log[p]) <= |Passed(s, k, p) + Passing(s, k, p)|
  {
    hide Inv, ItemsOk, Passed, Passing;
    var q, m, k := s.clients[r].pushed, s.log[p], s.clients[r].Key();
    var taken := Passed(s, k, p) + Passing(s, k, p);
    forall i | 0 <= i < |q| && Carries(s, q[i], m) ensures q[i] in AsItems(p, taken) {
      CopyWasTaken(s, r, p, i);
    }
    CopiesDiffer(s, r, m);
    CopiesAtMost(s, q, m, AsItems(p, taken));
    ImageSize(taken, e => Remote(p, e), AsItems(p, taken));
  }

  lemma CopyWasTaken(s: State, r: ClientId, p: nat, i: nat)
    requires Inv(s) && OtherHubDue(s, r, p) && i < |s.clients[r].pushed|
    requires Carries(s, s.clients[r].pushed[i], s.log[p])
    ensures var (it, k) := (s.clients[r].pushed[i], s.clients[r].Key());
            it.Remote? && it.p == p && it.sub in Passed(s, k, p) + Passing(s, k, p)
  {
    var it := s.clients[r].pushed[i];
    assert QueueOk(s, r) && ItemOk(s, r, it);
    PublishedOnce(s, p, it.p);
  }

  lemma TakenWereHeard(s: State, k: Key, p: nat)
    requires Inv(s)
    ensures Passed(s, k, p) + Passing(s, k, p) <= Hearing(s, k, p)
  {
    forall e | e in Passed(s, k, p) + Passing(s, k, p) ensures e in Hearing(s, k, p) {
      assert Within(s.subs[e], |s.log|) && SubTaskOk(s, e);
    }
  }

  lemma PublishedOnce(s: State, p: nat, p': nat)
    requires Inv(s) && p < |s.log| && p' < |s.log| && s.log[p] == s.log[p']
    ensures p == p'
  {
    assert s.handed[s.log[p]].sender == s.handed[s.log[p']].sender;
  }

  lemma {:induction false} ImageSize<A, B>(xs: set<A>, f: A -> B, ys: set<B>)
    requires forall x, x' | x in xs && x' in xs && f(x) == f(x') :: x == x'
    requires ys == set x | x in xs :: f(x)
    ensures |ys| == |xs|
    decreases xs
  {
    if xs != {} {
      var x :| x in xs;
      ImageSize(xs - {x}, f, ys - {f(x)});
    }
  }

  // ---- Copies and the subscriptions open at the time of publication ----

  /** The step that published the log's entry `p`. */
  ghost predicate Publishes(ss: seq<State>, steps: seq<Step>, j: nat, p: nat)
    requires Run(ss, steps)
  {
    j < |steps| && steps[j].Publish? && steps[j].ok && |ss[j].log| == p
  }

  lemma {:induction false} PublishedBySome(ss: seq<State>, steps: seq<Step>, n: nat, p: nat) returns (j: nat)
    requires Run(ss, steps) && n <= |steps| && p < |ss[n].log|
    ensures j < n && Publishes(ss, steps, j, p)
  {
    if p < |ss[n - 1].log| {
      j := PublishedBySome(ss, steps, n - 1, p);
    } else {
      j := n - 1;
    }
  }

  lemma {:induction false} RunExtends(ss: seq<State>, steps: seq<Step>, j: nat, n: nat)
    requires Run(ss, steps) && j <= n <= |steps|
    ensures Extends(ss[j], ss[n])
    decreases n
  {
    if j < n {
      RunExtends(ss, steps, j, n - 1);
      StepExtends(ss[n - 1], steps[n - 1]);
      ExtendsOn(ss[j], ss[n - 1], ss[n]);
    }
  }

  lemma ExtendsOn(s: State, t: State, u: State)
    requires Extends(s, t) && Extends(t, u)
    ensures Extends(s, u)
  {
    forall c | 0 <= c < |s.clients| ensures SameClient(s.clients[c], u.clients[c]) {
      assert SameClient(s.clients[c], t.clients[c]) && SameClient(t.clients[c], u.clients[c]);
    }
    forall e | 0 <= e < |s.subs| ensures SameSub(s.subs[e], u.subs[e], |s.log|) {
      assert SameSub(s.subs[e], t.subs[e], |s.log|) && SameSub(t.subs[e], u.subs[e], |t.log|);
    }
  }

  /** Whoever came later has only what was handed over later. */
  lemma {:induction false} LaterSince(ss: seq<State>, steps: seq<Step>, j: nat, n: nat, r: ClientId)
    requires Run(ss, steps) && j <= n <= |steps| && |ss[j].clients| <= r < |ss[n].clients|
    ensures |ss[j].handed| <= ss[n].clients[r].since
    decreases n
  {
    hide *;
    BeforeStep(ss, steps, j, n - 1);
    NewcomersSince(ss[n - 1], steps[n - 1], r);
    if r < |ss[n - 1].clients| {
      LaterSince(ss, steps, j, n - 1, r);
    }
  }

  lemma NewcomersSince(s: State, a: Step, r: ClientId)
    requires Enabled(s, a) && r < |Next(s, a).clients|
    ensures Next(s, a).clients[r].since == if r < |s.clients| then s.clients[r].since else |s.handed|
  {
    if r < |s.clients| {
      ClientExtends(s, a, r);
    }
  }

  /** While a client is registered, its hub makes no further subscription for its document. */
  lemma {:induction false} NoNewSubs(ss: seq<State>, steps: seq<Step>, j: nat, n: nat, r: ClientId, e: SubId)
    requires Run(ss, steps) && j <= n <= |steps| && r < |ss[j].clients| <= |ss[n].clients|
    requires ss[n].clients[r].Registered() && e < |ss[n].subs| && ss[n].subs[e].Key() == ss[n].clients[r].Key()
    ensures ss[j].clients[r].Registered() && e < |ss[j].subs|
    decreases n
  {
    hide *;
    if j < n {
      BeforeStep(ss, steps, j, n - 1);
      NoNewSubNow(ss[n - 1], steps[n - 1], r, e);
      NoNewSubs(ss, steps, j, n - 1, r, e);
    }
  }

  lemma BeforeStep(ss: seq<State>, steps: seq<Step>, j: nat, i: nat)
    requires Run(ss, steps) && j <= i < |steps|
    ensures |ss| == |steps| + 1 && Enabled(ss[i], steps[i]) && ss[i + 1] == Next(ss[i], steps[i])
    ensures RoomsOk(ss[i]) && |ss[j].clients| <= |ss[i].clients| <= |ss[i + 1].clients|
    ensures |ss[j].handed| <= |ss[i].handed|
  {
    ReachableInv(ss, steps, i);
    RunExtends(ss, steps, j, i);
    StepExtends(ss[i], steps[i]);
  }

  lemma NoNewSubNow(s: State, a: Step, r: ClientId, e: SubId)
    requires RoomsOk(s) && Enabled(s, a) && r < |s.clients| <= |Next(s, a).clients| && e < |Next(s, a).subs|
    requires Next(s, a).clients[r].Registered() && Next(s, a).subs[e].Key() == Next(s, a).clients[r].Key()
    ensures s.clients[r].Registered() && e < |s.subs| && s.subs[e].Key() == s.clients[r].Key()
  {
    StepExtends(s, a);
    WasRegistered(s, a, r);
    assert SameClient(s.clients[r], Next(s, a).clients[r]);
    NoNewSub(s, a, s.clients[r].Key(), e);
    assert SameSub(s.subs[e], Next(s, a).subs[e], |s.log|);
  }

  /** A hub's open subscriptions for a document. */
  function OpenFor(s: State, k: Key): set<SubId> {
    set e | 0 <= e < |s.subs| && s.subs[e].Key() == k && !s.subs[e].Closed()
  }

  /** The subscriptions that hear an entry due to a client are those open when it was published. */
  lemma HearingIsOpenThen(ss: seq<State>, steps: seq<Step>, j: nat, n: nat, r: ClientId, p: nat)
    requires Run(ss, steps) && j < n <= |steps| && Publishes(ss, steps, j, p) && OtherHubDue(ss[n], r, p)
    ensures r < |ss[j].clients| && ss[j].clients[r].Registered() && ss[j].clients[r].Key() == ss[n].clients[r].Key()
    ensures Hearing(ss[n], ss[n].clients[r].Key(), p) == OpenFor(ss[j], ss[n].clients[r].Key())
  {
    hide Next, Enabled, RoomsOk, QueuesOk, TasksOk, LogOk, ItemsOk, DeliveredOk, SinceOk;
    var s, s0, s1 := ss[n], ss[j], ss[j + 1];
    var k := s.clients[r].Key();
    DueWasRegistered(ss, steps, j, n, r, p);
    RunExtends(ss, steps, j + 1, n);
    RunExtends(ss, steps, j, n);
    ReachableInv(ss, steps, j);
    PublishingAppends(s0, steps[j]);
    forall e: SubId ensures e in Hearing(s, k, p) <==> e in OpenFor(s0, k) {
      if e < |s.subs| && s.subs[e].Key() == k {
        NoNewSubs(ss, steps, j, n, r, e);
      }
      if e < |s0.subs| {
        assert Within(s0.subs[e], p);
        assert SameSub(s1.subs[e], s.subs[e], p + 1);
      }
    }
  }

  lemma PublishingAppends(s: State, a: Step)
    requires Enabled(s, a) && a.Publish? && a.ok
    ensures Next(s, a).subs == s.subs && Next(s, a).log == s.log + [TaskOf(s, OfClient(a.c)).m]
  {}

  lemma DueWasRegistered(ss: seq<State>, steps: seq<Step>, j: nat, n: nat, r: ClientId, p: nat)
    requires Run(ss, steps) && j < n <= |steps| && Publishes(ss, steps, j, p) && OtherHubDue(ss[n], r, p)
    ensures r < |ss[j].clients| && ss[j].clients[r].Registered() && ss[j].clients[r].Key() == ss[n].clients[r].Key()
  {
    hide Next, SubsOk, QueuesOk, ItemsOk, DeliveredOk, SinceOk, LogOk;
    var s := ss[n];
    RunExtends(ss, steps, j + 1, n);
    RunExtends(ss, steps, j, n);
    ReachableInv(ss, steps, j);
    ReachableInv(ss, steps, n);
    PublishingAppends(ss[j], steps[j]);
    assert ClientTaskOk(ss[j], steps[j].c) && s.log[p] < |ss[j].handed|;
    if |ss[j].clients| <= r {
      LaterSince(ss, steps, j, n, r);
    }
    assert SameClient(ss[j].clients[r], s.clients[r]);
    var e := s.rooms[s.clients[r].Key()].sub;
    assert InRoom(s, r) && RoomOk(s, s.clients[r].Key());
    NoNewSubs(ss, steps, j, n, r, e);
  }

  /** The room's subscription has handed the entry on. */
  ghost predicate RoomHasRead(s: State, r: ClientId, p: nat)
    requires r < |s.clients|
  {
    var k := s.clients[r].Key();
    k in s.rooms && s.rooms[k].sub < |s.subs| && p < s.subs[s.rooms[k].sub].cursor
  }

  lemma RoomPassed(s: State, r: ClientId, p: nat)
    requires Inv(s) && OtherHubDue(s, r, p) && RoomHasRead(s, r, p)
    ensures 1 <= |Passed(s, s.clients[r].Key(), p)|
  {
    var k := s.clients[r].Key();
    var e := s.rooms[k].sub;
    assert RoomOk(s, k) && RemoteDue(s, r, e, p) && RemoteServed(s, r, e, p);
    assert QueueOk(s, r) && ItemOk(s, r, Remote(p, e));
    assert e in Passed(s, k, p);
  }

  /** Of another hub's message an open client is given no more copies than its hub had subscriptions open
  for the document when the message was published, and at least one once its room has handed it on. */
  lemma OtherHubBounded(ss: seq<State>, steps: seq<Step>, j: nat, n: nat, r: ClientId, p: nat)
    requires Run(ss, steps) && j < n <= |steps| && Publishes(ss, steps, j, p) && OtherHubDue(ss[n], r, p)
    ensures var copies := Copies(ss[n], ss[n].clients[r].pushed, ss[n].log[p]);
            && copies <= |OpenFor(ss[j], ss[n].clients[r].Key())|
            && (RoomHasRead(ss[n], r, p) ==> 1 <= copies)
  {
    var s := ss[n];
    var k := s.clients[r].Key();
    OtherHubCopies(ss, steps, n, r, p);
    HearingIsOpenThen(ss, steps, j, n, r, p);
    NoMore(Passed(s, k, p) + Passing(s, k, p), Hearing(s, k, p));
    if RoomHasRead(s, r, p) {
      ReachableInv(ss, steps, n);
      RoomPassed(s, r, p);
    }
  }

  lemma {:induction false} NoMore<A>(xs: set<A>, ys: set<A>)
    requires xs <= ys
    ensures |xs| <= |ys|
  {
    assert ys == xs + (ys - xs);
  }

  /** When every other subscription of its hub for the document had been closed by the time the message
  was published, an open client is given exactly one copy. */
  lemma OtherHubExactlyOnce(ss: seq<State>, steps: seq<Step>, j: nat, n: nat, r: ClientId, p: nat)
    requires Run(ss, steps) && j < n <= |steps| && Publishes(ss, steps, j, p) && OtherHubDue(ss[n], r, p)
    requires RoomHasRead(ss[n], r, p)
    requires forall e | e in OpenFor(ss[j], ss[n].clients[r].Key()) :: IsRoomSub(ss[j], e)
    ensures Copies(ss[n], ss[n].clients[r].pushed, ss[n].log[p]) == 1
  {
    var k := ss[n].clients[r].Key();
    OtherHubBounded(ss, steps, j, n, r, p);
    if OpenFor(ss[j], k) != {} {
      NoMore(OpenFor(ss[j], k), {ss[j].rooms[k].sub});
    }
  }

  /** Nothing is left to do: no client's goroutine is at work, and the rooms' subscriptions have read
  the whole log. */
  ghost predicate Drained(s: State) {
    && (forall c | 0 <= c < |s.clients| :: TaskOf(s, OfClient(c)).Waiting?)
    && (forall e | 0 <= e < |s.subs| && IsRoomSub(s, e) :: s.subs[e].cursor == |s.log|)
  }

  /** No loss: when all is drained, an open registered client has been given every message handed over
  for its document, on any hub, since it was registered, unless the publication failed. */
  lemma NothingLost(ss: seq<State>, steps: seq<Step>, n: nat, r: ClientId, m: MsgId)
    requires Run(ss, steps) && n <= |steps| && Drained(ss[n])
    requires var s := ss[n];
             && r < |s.clients| && s.clients[r].Registered() && !s.clients[r].closed
             && ValidMsg(s, m) && s.clients[r].since <= m && Origin(s, m).1 == s.clients[r].doc
             && (m in s.lost ==> Origin(s, m) == s.clients[r].Key())
    ensures 1 <= Copies(ss[n], ss[n].clients[r].pushed, m)
  {
    var s := ss[n];
    ReachableInv(ss, steps, n);
    if Origin(s, m) == s.clients[r].Key() {
      assert LocalDue(s, r, m);
      OwnHubExactlyOnce(ss, steps, n, r, m);
    } else {
      assert !WorksOn(s, s.handed[m].sender, m);
      assert m in s.log;
      var p :| 0 <= p < |s.log| && s.log[p] == m;
      assert InRoom(s, r) && RoomOk(s, s.clients[r].Key());
      OtherHubCopies(ss, steps, n, r, p);
      RoomPassed(s, r, p);
    }
  }

  // ---- Order ----

  predicate IsMessage(it: Item) { !it.Direct? }

  function MsgOf(s: State, it: Item): MsgId
    requires IsMessage(it) && (it.Remote? ==> it.p < |s.log|)
  {
    if it.Local? then it.m else s.log[it.p]
  }

  /** Two messages from one sender stand in the queue in the order their sender's goroutine handled
  them, if they came through one subscription (or none, from the own hub). */
  lemma SenderOrder(ss: seq<State>, steps: seq<Step>, n: nat, r: ClientId, i: nat, j: nat)
    requires Run(ss, steps) && n <= |steps| && r < |ss[n].clients| && i < j < |ss[n].clients[r].pushed|
    requires var x, y := ss[n].clients[r].pushed[i], ss[n].clients[r].pushed[j];
             && IsMessage(x) && IsMessage(y)
             && (x.Remote? ==> x.p < |ss[n].log|) && (y.Remote? ==> y.p < |ss[n].log|)
             && SameSender(ss[n], MsgOf(ss[n], x), MsgOf(ss[n], y))
             && (x.Remote? && y.Remote? ==> x.sub == y.sub)
    ensures MsgOf(ss[n], ss[n].clients[r].pushed[i]) < MsgOf(ss[n], ss[n].clients[r].pushed[j])
  {
    var s := ss[n];
    var q := s.clients[r].pushed;
    ReachableInv(ss, steps, n);
    assert QueueOk(s, r) && ItemOk(s, r, q[i]) && ItemOk(s, r, q[j]) && InOrder(s, q[i], q[j]);
  }

  // ---- Rooms and subscriptions ----

  function OpenSubs(s: State): set<SubId> {
    set e | 0 <= e < |s.subs| && !s.subs[e].Closed()
  }

  /** The departing clients that have yet to close their emptied room's subscription. */
  function Debtors(s: State): set<ClientId> {
    set c | 0 <= c < |s.clients| && s.clients[c].Emptied().Some?
  }

  /** As many subscriptions are open as rooms are mapped and emptied rooms not yet closed. */
  lemma SubscriptionsAccounted(ss: seq<State>, steps: seq<Step>, n: nat)
    requires Run(ss, steps) && n <= |steps|
    ensures |OpenSubs(ss[n])| == |ss[n].rooms| + |Debtors(ss[n])|
  {
    var s := ss[n];
    ReachableInv(ss, steps, n);
    var ofRooms := set k | k in s.rooms.Keys :: s.rooms[k].sub;
    var owed := set c | c in Debtors(s) :: s.clients[c].Emptied().value;
    OneSubPerRoom(s, ofRooms);
    OneSubPerDebtor(s, owed);
    OpenAreRoomsOrOwed(s, ofRooms, owed);
    assert |ofRooms + owed| == |ofRooms| + |owed|;
    assert |s.rooms| == |s.rooms.Keys|;
  }

  lemma OneSubPerRoom(s: State, ofRooms: set<SubId>)
    requires RoomsOk(s) && ofRooms == set k | k in s.rooms.Keys :: s.rooms[k].sub
    ensures |ofRooms| == |s.rooms.Keys|
  {
    var subOf := (k: Key) => if k in s.rooms then s.rooms[k].sub else 0;
    forall k, k' | k in s.rooms.Keys && k' in s.rooms.Keys && subOf(k) == subOf(k') ensures k == k' {
      assert RoomOk(s, k) && RoomOk(s, k');
    }
    assert ofRooms == set k | k in s.rooms.Keys :: subOf(k);
    ImageSize(s.rooms.Keys, subOf, ofRooms);
  }

  lemma OneSubPerDebtor(s: State, owed: set<SubId>)
    requires SubsOk(s) && owed == set c | c in Debtors(s) :: s.clients[c].Emptied().value
    ensures |owed| == |Debtors(s)|
  {
    var debtOf := (c: ClientId) =>
      if c < |s.clients| && s.clients[c].Emptied().Some? then s.clients[c].Emptied().value else 0;
    assert owed == set c | c in Debtors(s) :: debtOf(c);
    ImageSize(Debtors(s), debtOf, owed);
  }

  lemma OpenAreRoomsOrOwed(s: State, ofRooms: set<SubId>, owed: set<SubId>)
    requires Inv(s)
    requires ofRooms == set k | k in s.rooms.Keys :: s.rooms[k].sub
    requires owed == set c | c in Debtors(s) :: s.clients[c].Emptied().value
    ensures OpenSubs(s) == ofRooms + owed && ofRooms !! owed
  {
    forall e | e in OpenSubs(s) ensures e in ofRooms + owed {
      if IsRoomSub(s, e) {
        assert s.subs[e].Key() in s.rooms.Keys;
      } else {
        var c :| Owes(s, c, e);
        assert c in Debtors(s);
      }
    }
    forall e | e in ofRooms ensures e in OpenSubs(s) && e !in owed {
      var k :| k in s.rooms.Keys && s.rooms[k].sub == e;
      assert RoomOk(s, k) && IsRoomSub(s, e);
    }
    forall e | e in owed ensures e in OpenSubs(s) {
      var c :| c in Debtors(s) && s.clients[c].Emptied().value == e;
      assert DebtOk(s, c, e);
    }
  }

  /** No subscription is closed twice, and a client that unregisters always finds its room. */
  lemma ClosedOnceAndRoomFound(ss: seq<State>, steps: seq<Step>, n: nat)
    requires Run(ss, steps) && n < |steps|
    ensures var s, a := ss[n], steps[n];
            && (a.CloseSub? && s.clients[a.c].phase.emptied.Some? ==>
                  !s.subs[s.clients[a.c].phase.emptied.value].Closed())
            && (a.Unregister? ==> InRoom(s, a.c))
  {
    ReachableInv(ss, steps, n);
    var s, a := ss[n], steps[n];
    if a.CloseSub? && s.clients[a.c].phase.emptied.Some? {
      assert DebtOk(s, a.c, s.clients[a.c].Emptied().value);
    }
  }

  // ---- Broadcasts ----

  /** A finished broadcast has given the message to everyone in its snapshot or closed them, and no
  queue ever holds more than its capacity. */
  lemma BroadcastReachesAll(ss: seq<State>, steps: seq<Step>, n: nat, r: ClientId)
    requires Run(ss, steps) && n < |steps| && steps[n].Finish? && r in TaskOf(ss[n], steps[n].th).snap
    ensures r < |ss[n].clients| && HasOrClosed(ss[n], r, Mark(ss[n], steps[n].th, TaskOf(ss[n], steps[n].th).m))
    ensures ss[n].clients[r].written <= |ss[n].clients[r].pushed| <= ss[n].clients[r].written + ss[n].clients[r].cap
  {
    ReachableInv(ss, steps, n);
    assert TargetsOk(ss[n], steps[n].th) && SnapOk(ss[n], steps[n].th);
  }
}
