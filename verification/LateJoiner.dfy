/** A client that joins a running session ends up with the worker's document: the join flow, the room
protocol and the worker taken together. */
module LateJoiner {
  import opened Wrappers
  import opened Envelopes
  import opened RoomProtocol
  import opened RoomInvariants
  import opened RoomDelivery
  import opened RoomTheorems
  import opened RoomAnnouncements
  import opened WorkerRuntime
  import opened WorkerSession
  import opened JoinFlow

  /** What a client's socket has delivered, once its queue is written out. */
  function BodyOf(s: State, it: Item): Body {
    match it
    case Direct => Ack
    case Local(m) => if m < |s.handed| then s.handed[m].body else Ack
    case Remote(p, _) => if p < |s.log| && s.log[p] < |s.handed| then s.handed[s.log[p]].body else Ack
  }

  function Received(s: State, q: seq<Item>): seq<Body> {
    seq(|q|, i requires 0 <= i < |q| => BodyOf(s, q[i]))
  }

  /** `u` was handed to some hub of the document with number `m`. */
  predicate Hands(s: State, m: MsgId, doc: Doc, u: Update) {
    ValidMsg(s, m) && Origin(s, m).1 == doc && s.handed[m].body == Edit(Some(u))
  }

  /** A document that is open was open before, and had no more updates then. */
  lemma {:induction false} WorkedGrows(s: State, doc: Doc, init: Runtime, start: nat, k: nat, n: nat)
    requires start <= k <= n <= |s.log| && Worked(s, doc, init, start, n).Some?
    ensures Worked(s, doc, init, start, k).Some?
    ensures Worked(s, doc, init, start, k).value.updates <= Worked(s, doc, init, start, n).value.updates
  {
    if k < n {
      WorkedGrows(s, doc, init, start, k, n - 1);
    }
  }

  /** The open document: the initial one and the edits read. */
  lemma {:induction false} WorkedUpdates(s: State, doc: Doc, init: Runtime, start: nat, k: nat, u: Update)
    requires start <= k <= |s.log| && Worked(s, doc, init, start, k).Some?
    ensures u in Worked(s, doc, init, start, k).value.updates
       <==> u in init.updates || exists p :: start <= p < k && p < |s.log| && Hands(s, s.log[p], doc, u)
  {
    if k > start {
      WorkedUpdates(s, doc, init, start, k - 1, u);
      assert Hands(s, s.log[k - 1], doc, u) <==> OfDoc(s, k - 1, doc) && s.handed[s.log[k - 1]].body == Edit(Some(u));
    }
  }

  /** The joiner's situation when all is over: `r` was registered after the worker had subscribed at
  `start`, the worker answered it after reading up to `k`, and by then had applied every edit handed to
  a hub before `r` was registered. All is drained, the worker has read the log, and no edit of the
  document was lost. */
  ghost predicate CaughtUp(s: State, r: ClientId, init: Runtime, start: nat, k: nat) {
    && r < |s.clients| && s.clients[r].Registered() && !s.clients[r].closed
    && start <= s.clients[r].logAt && start <= k <= |s.log| && Drained(s)
    && Worked(s, s.clients[r].doc, init, start, k).Some?
    && (forall m: MsgId, u: Update | Hands(s, m, s.clients[r].doc, u) && m < s.clients[r].since ::
          u in Worked(s, s.clients[r].doc, init, start, k).value.updates)
    && (forall m: MsgId, u: Update | Hands(s, m, s.clients[r].doc, u) :: m !in s.lost)
  }

  /** The worker has the document open at the end of the log. */
  ghost predicate StillOpen(s: State, doc: Doc, init: Runtime, start: nat) {
    start <= |s.log| && Worked(s, doc, init, start, |s.log|).Some?
  }

  lemma ReceivedUpdate(s: State, q: seq<Item>, u: Update)
    ensures u in Updates(Received(s, q)) <==> exists i :: 0 <= i < |q| && BodyOf(s, q[i]) == Edit(Some(u))
  {
    var bodies := Received(s, q);
    UpdatesContain(bodies, u);
    if i :| 0 <= i < |q| && BodyOf(s, q[i]) == Edit(Some(u)) {
      assert bodies[i] == Edit(Some(u));
    }
  }

  /** Whatever the joiner received, the worker has. */
  lemma ReceivedIsWorked(s: State, r: ClientId, init: Runtime, start: nat, k: nat, i: nat, u: Update)
    requires Inv(s) && CaughtUp(s, r, init, start, k) && StillOpen(s, s.clients[r].doc, init, start)
    requires i < |s.clients[r].pushed| && BodyOf(s, s.clients[r].pushed[i]) == Edit(Some(u))
    ensures u in Worked(s, s.clients[r].doc, init, start, |s.log|).value.updates
  {
    var it, doc := s.clients[r].pushed[i], s.clients[r].doc;
    assert QueueOk(s, r) && ItemOk(s, r, it);
    var m := if it.Local? then it.m else s.log[it.p];
    assert Hands(s, m, doc, u);
    WorkedGrows(s, doc, init, start, k, |s.log|);
    if s.clients[r].since <= m {
      HandedSinceIsWorked(s, r, init, start, k, m, u);
    }
  }

  /** An edit handed over since the joiner was registered reaches the worker. */
  lemma HandedSinceIsWorked(s: State, r: ClientId, init: Runtime, start: nat, k: nat, m: MsgId, u: Update)
    requires Inv(s) && CaughtUp(s, r, init, start, k) && StillOpen(s, s.clients[r].doc, init, start)
    requires Hands(s, m, s.clients[r].doc, u) && s.clients[r].since <= m
    ensures u in Worked(s, s.clients[r].doc, init, start, |s.log|).value.updates
  {
    assert !WorksOn(s, s.handed[m].sender, m);
    assert m in s.log;
    var p :| 0 <= p < |s.log| && s.log[p] == m;
    assert s.clients[r].logAt <= p;
    WorkedUpdates(s, s.clients[r].doc, init, start, |s.log|, u);
  }

  /** Whatever the worker has, it answered with or the joiner received. */
  lemma WorkedIsReceived(ss: seq<State>, steps: seq<Step>, n: nat, r: ClientId, init: Runtime, start: nat, k: nat,
                         u: Update)
    requires Run(ss, steps) && n <= |steps| && CaughtUp(ss[n], r, init, start, k)
    requires StillOpen(ss[n], ss[n].clients[r].doc, init, start)
    requires u in Worked(ss[n], ss[n].clients[r].doc, init, start, |ss[n].log|).value.updates
    ensures var s := ss[n];
            u in Worked(s, s.clients[r].doc, init, start, k).value.updates
            || u in Updates(Received(s, s.clients[r].pushed))
  {
    var s := ss[n];
    var doc, q := s.clients[r].doc, s.clients[r].pushed;
    ReachableInv(ss, steps, n);
    WorkedUpdates(s, doc, init, start, |s.log|, u);
    WorkedUpdates(s, doc, init, start, k, u);
    if u !in Worked(s, doc, init, start, k).value.updates {
      var p :| start <= p < |s.log| && Hands(s, s.log[p], doc, u);
      LaterIsReceived(ss, steps, n, r, init, start, k, s.log[p], u);
    }
  }

  /** An edit that the worker had not applied when it answered was handed over since the joiner was registered. */
  lemma LaterIsReceived(ss: seq<State>, steps: seq<Step>, n: nat, r: ClientId, init: Runtime, start: nat, k: nat,
                        m: MsgId, u: Update)
    requires Run(ss, steps) && n <= |steps| && CaughtUp(ss[n], r, init, start, k)
    requires Hands(ss[n], m, ss[n].clients[r].doc, u)
    requires u !in Worked(ss[n], ss[n].clients[r].doc, init, start, k).value.updates
    ensures u in Updates(Received(ss[n], ss[n].clients[r].pushed))
  {
    var s := ss[n];
    assert s.clients[r].since <= m;
    NothingLost(ss, steps, n, r, m);
    var i := CopyIndex(s, s.clients[r].pushed, m);
    ReceivedUpdate(s, s.clients[r].pushed, u);
  }

  lemma {:induction false} CopyIndex(s: State, q: seq<Item>, m: MsgId) returns (i: nat)
    requires 1 <= Copies(s, q, m)
    ensures i < |q| && Carries(s, q[i], m)
  {
    if Carries(s, q[|q| - 1], m) {
      i := |q| - 1;
    } else {
      i := CopyIndex(s, q[..|q| - 1], m);
    }
  }

  /** What the joiner has merged when all is over. */
  ghost function JoinersDocument(s: State, r: ClientId, answer: Runtime): set<Update>
    requires r < |s.clients|
  {
    Merged(JoinFeed(answer, Received(s, s.clients[r].pushed)))
  }

  /** The joiner catches up, whatever the interleaving: merging the worker's answer and all that was
  received, buffered or live, gives exactly the document the worker has, if it still has one. */
  lemma LateJoinerCatchesUp(ss: seq<State>, steps: seq<Step>, n: nat, r: ClientId, init: Runtime, start: nat, k: nat)
    requires Run(ss, steps) && n <= |steps| && CaughtUp(ss[n], r, init, start, k)
    requires StillOpen(ss[n], ss[n].clients[r].doc, init, start)
    ensures var s := ss[n];
            JoinersDocument(s, r, Worked(s, s.clients[r].doc, init, start, k).value)
              == Worked(s, s.clients[r].doc, init, start, |s.log|).value.updates
  {
    var s := ss[n];
    var doc, q := s.clients[r].doc, s.clients[r].pushed;
    var answer, final := Worked(s, doc, init, start, k).value, Worked(s, doc, init, start, |s.log|).value;
    var us := Updates(Received(s, q));
    ReachableInv(ss, steps, n);
    WorkedGrows(s, doc, init, start, k, |s.log|);
    MergedSnapshotAndOnes(answer.updates, us);
    forall u | u in us ensures u in final.updates {
      ReceivedUpdate(s, q, u);
      var i :| 0 <= i < |q| && BodyOf(s, q[i]) == Edit(Some(u));
      ReceivedIsWorked(s, r, init, start, k, i, u);
    }
    forall u | u in final.updates ensures u in answer.updates || u in us {
      WorkedIsReceived(ss, steps, n, r, init, start, k, u);
    }
  }

  /** Joiner and worker end up with the same document. */
  ghost predicate Agree(s: State, r: ClientId, init: Runtime, start: nat, k: nat)
    requires CaughtUp(s, r, init, start, k)
  {
    && StillOpen(s, s.clients[r].doc, init, start)
    && JoinersDocument(s, r, Worked(s, s.clients[r].doc, init, start, k).value)
         == Worked(s, s.clients[r].doc, init, start, |s.log|).value.updates
  }

  /** They do exactly when somebody has been there all the time. */
  lemma LateJoinerCatchesUpExactly(ss: seq<State>, steps: seq<Step>, n: nat,
                                   r: ClientId, first: ClientId, init: Runtime, start: nat, k: nat)
    requires Run(ss, steps) && n <= |steps| && CaughtUp(ss[n], r, init, start, k)
    requires StartsWithFirst(ss[n], ss[n].clients[r].doc, first, start) && init.userCount == 1
    ensures var s := ss[n];
            Agree(s, r, init, start, k) <==>
            forall j | start < j <= |s.log| :: Present(s, s.clients[r].doc, first, start, j) != {}
  {
    var s := ss[n];
    ReachableInv(ss, steps, n);
    ReachableAnnounce(ss, steps, n);
    WorkerCountExact(s, s.clients[r].doc, first, init, start, |s.log|);
    if StillOpen(s, s.clients[r].doc, init, start) {
      LateJoinerCatchesUp(ss, steps, n, r, init, start, k);
    }
  }

  /** In particular they do whenever the worker had read the joiner's own arrival before it answered. */
  lemma CatchesUpAfterOwnJoin(ss: seq<State>, steps: seq<Step>, n: nat,
                              r: ClientId, first: ClientId, init: Runtime, start: nat, k: nat)
    requires Run(ss, steps) && n <= |steps| && CaughtUp(ss[n], r, init, start, k)
    requires StartsWithFirst(ss[n], ss[n].clients[r].doc, first, start) && init.userCount == 1
    requires JoinRead(ss[n], r, start, k)
    ensures Agree(ss[n], r, init, start, k)
  {
    var s := ss[n];
    var doc := s.clients[r].doc;
    ReachableInv(ss, steps, n);
    ReachableAnnounce(ss, steps, n);
    WorkerCountExact(s, doc, first, init, start, k);
    forall j | start < j <= |s.log| ensures Present(s, doc, first, start, j) != {} {
      if j > k {
        StaysPresent(s, doc, first, start, r, j, k);
      }
    }
    LateJoinerCatchesUpExactly(ss, steps, n, r, first, init, start, k);
  }

  lemma StaysPresent(s: State, doc: Doc, first: ClientId, start: nat, r: ClientId, j: nat, k: nat)
    requires Inv(s) && AnnounceOk(s) && Drained(s) && r < |s.clients| && s.clients[r].doc == doc
    requires s.clients[r].Registered()
    requires start <= k <= j <= |s.log| && JoinRead(s, r, start, k)
    ensures r in Present(s, doc, first, start, j)
  {
    assert StageOk(s, r) && ClientTaskOk(s, r);
    assert JoinRead(s, r, start, j);
    forall p | start <= p < j ensures !SaysLeft(s, s.log[p], r) {
      assert !HasLeft(s, r);
    }
  }
}
