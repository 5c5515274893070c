/** The worker beside the room protocol: a silent reader of the same log, and what its count and its
document mean for the clients of all hubs (collaboration-state-worker/src/documentManager.ts:57-85,
110-143). */
module WorkerSession {
  import opened Wrappers
  import opened RoomProtocol
  import opened RoomInvariants
  import opened RoomTheorems
  import opened RoomAnnouncements
  import opened WorkerRuntime

  lemma {:induction false} ReachableAnnounce(ss: seq<State>, steps: seq<Step>, n: nat)
    requires Run(ss, steps) && n <= |steps|
    ensures AnnounceOk(ss[n])
  {
    if n > 0 {
      ReachableAnnounce(ss, steps, n - 1);
      ReachableInv(ss, steps, n - 1);
      KeepsAnnounce(ss[n - 1], steps[n - 1]);
    }
  }

  // ---- The worker's run over the log ----

  predicate OfDoc(s: State, p: nat, doc: Doc) {
    p < |s.log| && ValidMsg(s, s.log[p]) && Origin(s, s.log[p]).1 == doc
  }

  /** What the worker holds for `doc` after reading the log from `start` up to `k`: None once the
  document has been closed. */
  function Worked(s: State, doc: Doc, init: Runtime, start: nat, k: nat): Option<Runtime>
    requires start <= k <= |s.log|
  {
    if k == start then Some(init)
    else
      var rt := Worked(s, doc, init, start, k - 1);
      if OfDoc(s, k - 1, doc) then Handled(rt, s.handed[s.log[k - 1]].body) else rt
  }

  // ---- The user count ----

  ghost predicate JoinRead(s: State, c: ClientId, start: nat, k: nat) {
    exists p :: start <= p < k && p < |s.log| && SaysJoined(s, s.log[p], c)
  }

  ghost predicate LeftRead(s: State, c: ClientId, start: nat, k: nat) {
    exists p :: start <= p < k && p < |s.log| && SaysLeft(s, s.log[p], c)
  }

  /** The clients of the document whose join, but not whose leave, has been read; the first client,
  whose join came before the worker, belongs from the start. */
  ghost function Present(s: State, doc: Doc, first: ClientId, start: nat, k: nat): set<ClientId> {
    set c | 0 <= c < |s.clients| && s.clients[c].doc == doc
            && (c == first || JoinRead(s, c, start, k)) && !LeftRead(s, c, start, k)
  }

  /** The worker subscribed at `start`, after the first client's join and before that of any other
  client still to leave, and no join of the document failed to be published. */
  ghost predicate StartsWithFirst(s: State, doc: Doc, first: ClientId, start: nat) {
    && start <= |s.log|
    && first < |s.clients| && s.clients[first].doc == doc && !JoinRead(s, first, start, |s.log|)
    && (forall c | 0 <= c < |s.clients| && s.clients[c].doc == doc && c != first && JoinRead(s, c, 0, start) ::
          LeftRead(s, c, 0, start))
    && (forall c: ClientId, m | m in s.lost && c < |s.clients| && SaysJoined(s, m, c) :: s.clients[c].doc != doc)
  }

  lemma OneMoreRead(s: State, c: ClientId, start: nat, k: nat)
    requires start < k <= |s.log|
    ensures JoinRead(s, c, start, k) <==> JoinRead(s, c, start, k - 1) || SaysJoined(s, s.log[k - 1], c)
    ensures LeftRead(s, c, start, k) <==> LeftRead(s, c, start, k - 1) || SaysLeft(s, s.log[k - 1], c)
  {}

  /** Reading a join: its client was not counted before. */
  lemma JoinIsNew(s: State, doc: Doc, first: ClientId, start: nat, k: nat, c: ClientId)
    requires Inv(s) && AnnounceOk(s) && StartsWithFirst(s, doc, first, start) && start < k <= |s.log|
    requires c < |s.clients| && s.clients[c].doc == doc && SaysJoined(s, s.log[k - 1], c)
    ensures c !in Present(s, doc, first, start, k - 1) && !LeftRead(s, c, start, k)
  {
    var m := s.log[k - 1];
    assert JoinRead(s, c, start, |s.log|);
    forall p | start <= p < k - 1 ensures !SaysJoined(s, s.log[p], c) {
      assert OnceOk(s, s.log[p], m, c);
    }
    forall p | start <= p < k ensures !SaysLeft(s, s.log[p], c) {
      assert OnceOk(s, s.log[p], m, c);
    }
  }

  /** Reading a leave: its client was counted, so the count was not zero. */
  lemma LeaverWasPresent(s: State, doc: Doc, first: ClientId, start: nat, k: nat, c: ClientId)
    requires Inv(s) && AnnounceOk(s) && StartsWithFirst(s, doc, first, start) && start < k <= |s.log|
    requires c < |s.clients| && s.clients[c].doc == doc && SaysLeft(s, s.log[k - 1], c)
    ensures c in Present(s, doc, first, start, k - 1)
  {
    NotLeftBefore(s, c, start, k - 1);
    if c != first {
      LeaverHadJoined(s, doc, first, start, k - 1, c);
    }
  }

  lemma NotLeftBefore(s: State, c: ClientId, start: nat, q: nat)
    requires Inv(s) && AnnounceOk(s) && start <= q < |s.log| && SaysLeft(s, s.log[q], c)
    ensures !LeftRead(s, c, 0, start) && !LeftRead(s, c, start, q)
  {
    forall p | 0 <= p < q ensures !SaysLeft(s, s.log[p], c) {
      assert OnceOk(s, s.log[p], s.log[q], c);
    }
  }

  lemma LeaverHadJoined(s: State, doc: Doc, first: ClientId, start: nat, q: nat, c: ClientId)
    requires Inv(s) && AnnounceOk(s) && StartsWithFirst(s, doc, first, start) && start <= q < |s.log|
    requires c < |s.clients| && s.clients[c].doc == doc && SaysLeft(s, s.log[q], c) && c != first
    requires !LeftRead(s, c, 0, start)
    ensures JoinRead(s, c, start, q)
  {
    JoinedBeforeLeft(s, c, q);
    assert !LostJoin(s, c);
    var p :| 0 <= p < q && SaysJoined(s, s.log[p], c);
    assert !JoinRead(s, c, 0, start);
  }

  ghost predicate LostJoin(s: State, c: ClientId) {
    exists m :: m in s.lost && SaysJoined(s, m, c)
  }

  /** A published leave is preceded in the log by the client's join, unless that was lost. */
  lemma JoinedBeforeLeft(s: State, c: ClientId, q: nat)
    requires Inv(s) && AnnounceOk(s) && c < |s.clients| && q < |s.log| && SaysLeft(s, s.log[q], c)
    ensures LostJoin(s, c) || exists p :: 0 <= p < q && SaysJoined(s, s.log[p], c)
  {
    var m := s.log[q];
    assert StageOk(s, c) && HasSpoken(s, c) && HasLeft(s, c);
    var j :| SaysJoined(s, j, c);
    assert OnceOk(s, m, j, c) && j < m;
    assert !WorksOn(s, c, j) by {
      assert ClientTaskOk(s, c);
    }
    if j !in s.lost {
      assert j in s.log;
      var p :| 0 <= p < |s.log| && s.log[p] == j;
    }
  }

  /** Some entry read so far was the leave of the last client. */
  ghost predicate StoodEmpty(s: State, doc: Doc, first: ClientId, start: nat, k: nat) {
    exists j :: start < j <= k && Present(s, doc, first, start, j) == {}
  }

  ghost predicate CountRight(s: State, doc: Doc, first: ClientId, init: Runtime, start: nat, k: nat)
    requires start <= k <= |s.log|
  {
    var rt := Worked(s, doc, init, start, k);
    && (rt.None? <==> StoodEmpty(s, doc, first, start, k))
    && (rt.Some? ==> rt.value.userCount == |Present(s, doc, first, start, k)|)
  }

  /** The count is exact: while the document is open, as many as the clients whose join and not whose
  leave has been read; and it is closed once, and only once, nobody has been left. */
  lemma {:induction false} WorkerCountExact(s: State, doc: Doc, first: ClientId, init: Runtime, start: nat, k: nat)
    requires Inv(s) && AnnounceOk(s) && StartsWithFirst(s, doc, first, start)
    requires start <= k <= |s.log| && init.userCount == 1
    ensures CountRight(s, doc, first, init, start, k)
  {
    if k == start {
      CountAtStart(s, doc, first, init, start);
    } else {
      WorkerCountExact(s, doc, first, init, start, k - 1);
      PresentSizeStep(s, doc, first, start, k);
      StoodEmptyStep(s, doc, first, start, k);
      CountRightStep(s, doc, first, init, start, k);
    }
  }

  lemma CountAtStart(s: State, doc: Doc, first: ClientId, init: Runtime, start: nat)
    requires start <= |s.log| && first < |s.clients| && s.clients[first].doc == doc && init.userCount == 1
    ensures CountRight(s, doc, first, init, start, start)
  {
    assert Present(s, doc, first, start, start) == {first};
  }

  lemma CountRightStep(s: State, doc: Doc, first: ClientId, init: Runtime, start: nat, k: nat)
    requires start < k <= |s.log| && CountRight(s, doc, first, init, start, k - 1)
    requires |Present(s, doc, first, start, k)| - |Present(s, doc, first, start, k - 1)| == Change(s, doc, k)
    requires StoodEmpty(s, doc, first, start, k)
        <==> StoodEmpty(s, doc, first, start, k - 1) || |Present(s, doc, first, start, k)| == 0
    requires StoodEmpty(s, doc, first, start, k - 1) || |Present(s, doc, first, start, k - 1)| > 0
    ensures CountRight(s, doc, first, init, start, k)
  {
    if Worked(s, doc, init, start, k - 1).Some? {
      CountStep(s, doc, init, start, k);
    }
  }

  /** What the entry before `k` does to the number of clients there. */
  function Change(s: State, doc: Doc, k: nat): int
    requires 0 < k <= |s.log|
  {
    if !OfDoc(s, k - 1, doc) then 0
    else match s.handed[s.log[k - 1]].body
      case Joined(_, _) => 1
      case Left(_, _) => -1
      case _ => 0
  }

  lemma PresentSizeStep(s: State, doc: Doc, first: ClientId, start: nat, k: nat)
    requires Inv(s) && AnnounceOk(s) && StartsWithFirst(s, doc, first, start) && start < k <= |s.log|
    ensures |Present(s, doc, first, start, k)| - |Present(s, doc, first, start, k - 1)| == Change(s, doc, k)
    ensures StoodEmpty(s, doc, first, start, k - 1) || |Present(s, doc, first, start, k - 1)| > 0
  {
    PresentStep(s, doc, first, start, k);
    if k - 1 == start {
      assert first in Present(s, doc, first, start, k - 1);
    }
  }

  lemma StoodEmptyStep(s: State, doc: Doc, first: ClientId, start: nat, k: nat)
    requires start < k <= |s.log|
    ensures StoodEmpty(s, doc, first, start, k)
       <==> StoodEmpty(s, doc, first, start, k - 1) || |Present(s, doc, first, start, k)| == 0
  {
    assert |Present(s, doc, first, start, k)| == 0 <==> Present(s, doc, first, start, k) == {};
  }

  lemma CountStep(s: State, doc: Doc, init: Runtime, start: nat, k: nat)
    requires start < k <= |s.log| && Worked(s, doc, init, start, k - 1).Some?
    ensures var before, after := Worked(s, doc, init, start, k - 1).value, Worked(s, doc, init, start, k);
            if !OfDoc(s, k - 1, doc) then after == Some(before)
            else
              var body := s.handed[s.log[k - 1]].body;
              var count := if body.Joined? then before.userCount + 1
                           else if body.Left? && before.userCount > 0 then before.userCount - 1 else before.userCount;
              if count == 0 then after.None? else after.Some? && after.value.userCount == count
  {}

  /** The clamp at zero never acts: a leave that an open document reads is that of a client counted, so
  the count goes down by one; and the document closes exactly with the leave of the last one. */
  lemma ClampNeverActs(s: State, doc: Doc, first: ClientId, init: Runtime, start: nat, k: nat)
    requires Inv(s) && AnnounceOk(s) && StartsWithFirst(s, doc, first, start)
    requires start < k <= |s.log| && init.userCount == 1 && Worked(s, doc, init, start, k - 1).Some?
    ensures var before, after := Worked(s, doc, init, start, k - 1).value, Worked(s, doc, init, start, k);
            && (LeaveRead(s, doc, k) ==>
                  && before.userCount > 0 && s.handed[s.log[k - 1]].sender in Present(s, doc, first, start, k - 1)
                  && (after.Some? ==> after.value.userCount == before.userCount - 1))
            && (after.None? <==> LeaveRead(s, doc, k) && Present(s, doc, first, start, k) == {})
  {
    CountNow(s, doc, first, init, start, k);
    var after := Present(s, doc, first, start, k);
    ClosesAtZero(s, doc, init, start, k, |Present(s, doc, first, start, k - 1)|, |after|);
    if LeaveRead(s, doc, k) {
      LeaverWasPresent(s, doc, first, start, k, s.handed[s.log[k - 1]].sender);
    }
    assert |after| == 0 <==> after == {};
  }

  /** Before it reads an entry an open document counts the clients there; the entry changes their number. */
  lemma CountNow(s: State, doc: Doc, first: ClientId, init: Runtime, start: nat, k: nat)
    requires Inv(s) && AnnounceOk(s) && StartsWithFirst(s, doc, first, start)
    requires start < k <= |s.log| && init.userCount == 1 && Worked(s, doc, init, start, k - 1).Some?
    ensures var size := |Present(s, doc, first, start, k - 1)|;
            && 0 < size == Worked(s, doc, init, start, k - 1).value.userCount
            && |Present(s, doc, first, start, k)| - size == Change(s, doc, k)
  {
    WorkerCountExact(s, doc, first, init, start, k - 1);
    PresentSizeStep(s, doc, first, start, k);
    OpenHasSomebody(s, doc, first, init, start, k - 1);
  }

  lemma OpenHasSomebody(s: State, doc: Doc, first: ClientId, init: Runtime, start: nat, k: nat)
    requires start <= k <= |s.log| && Worked(s, doc, init, start, k).Some? && CountRight(s, doc, first, init, start, k)
    requires StoodEmpty(s, doc, first, start, k) || |Present(s, doc, first, start, k)| > 0
    ensures 0 < |Present(s, doc, first, start, k)| == Worked(s, doc, init, start, k).value.userCount
  {}

  /** The entry before `k` is the leave of a client of the document. */
  predicate LeaveRead(s: State, doc: Doc, k: nat)
    requires 0 < k <= |s.log|
  {
    OfDoc(s, k - 1, doc) && s.handed[s.log[k - 1]].body.Left?
  }

  lemma ClosesAtZero(s: State, doc: Doc, init: Runtime, start: nat, k: nat, size: nat, size': nat)
    requires start < k <= |s.log| && Worked(s, doc, init, start, k - 1).Some?
    requires Worked(s, doc, init, start, k - 1).value.userCount == size && 0 < size && size' - size == Change(s, doc, k)
    ensures var after := Worked(s, doc, init, start, k);
            && (after.None? <==> LeaveRead(s, doc, k) && size' == 0)
            && (after.Some? ==> after.value.userCount == size')
  {
    CountStep(s, doc, init, start, k);
  }

  lemma PresentStep(s: State, doc: Doc, first: ClientId, start: nat, k: nat)
    requires Inv(s) && AnnounceOk(s) && StartsWithFirst(s, doc, first, start) && start < k <= |s.log|
    ensures var before, after := Present(s, doc, first, start, k - 1), Present(s, doc, first, start, k);
            var c := s.handed[s.log[k - 1]].sender;
            var body := s.handed[s.log[k - 1]].body;
            if !OfDoc(s, k - 1, doc) then after == before
            else match body
              case Joined(_, _) => c !in before && after == before + {c}
              case Left(_, _) => c in before && after == before - {c}
              case _ => after == before
  {
    var before, after := Present(s, doc, first, start, k - 1), Present(s, doc, first, start, k);
    var m := s.log[k - 1];
    var c := s.handed[m].sender;
    forall d | 0 <= d < |s.clients| && d != c ensures d in after <==> d in before {
      OneMoreRead(s, d, start, k);
    }
    OneMoreRead(s, c, start, k);
    if s.clients[c].doc == doc {
      if SaysJoined(s, m, c) {
        JoinIsNew(s, doc, first, start, k, c);
      } else if SaysLeft(s, m, c) {
        LeaverWasPresent(s, doc, first, start, k, c);
      }
    }
  }

  /** When all is drained and no announcement of the document was lost, an open document counts the
  registered clients, on all hubs together. It is open exactly if it never stood empty. */
  lemma CountIsRegisteredClients(ss: seq<State>, steps: seq<Step>, n: nat,
                                 doc: Doc, first: ClientId, init: Runtime, start: nat)
    requires Run(ss, steps) && n <= |steps| && init.userCount == 1
    requires StartsWithFirst(ss[n], doc, first, start) && !LeftRead(ss[n], first, 0, start)
    requires forall c | 0 <= c < |ss[n].clients| :: TaskOf(ss[n], OfClient(c)).Waiting?
    requires forall c: ClientId, m | m in ss[n].lost && c < |ss[n].clients| && SaysLeft(ss[n], m, c) ::
               ss[n].clients[c].doc != doc
    ensures var s := ss[n];
            var rt := Worked(s, doc, init, start, |s.log|);
            && (rt.None? <==> StoodEmpty(s, doc, first, start, |s.log|))
            && (rt.Some? ==>
                  rt.value.userCount
                    == |set c | 0 <= c < |s.clients| && s.clients[c].doc == doc && s.clients[c].Registered()|)
  {
    var s := ss[n];
    ReachableInv(ss, steps, n);
    ReachableAnnounce(ss, steps, n);
    WorkerCountExact(s, doc, first, init, start, |s.log|);
    var registered := set c | 0 <= c < |s.clients| && s.clients[c].doc == doc && s.clients[c].Registered();
    forall c | 0 <= c < |s.clients| && s.clients[c].doc == doc
      ensures c in Present(s, doc, first, start, |s.log|) <==> c in registered
    {
      IdleClientPresent(s, doc, first, start, c);
    }
    assert Present(s, doc, first, start, |s.log|) == registered;
  }

  lemma IdleClientPresent(s: State, doc: Doc, first: ClientId, start: nat, c: ClientId)
    requires Inv(s) && AnnounceOk(s) && StartsWithFirst(s, doc, first, start) && !LeftRead(s, first, 0, start)
    requires c < |s.clients| && s.clients[c].doc == doc && TaskOf(s, OfClient(c)).Waiting?
    requires forall m | m in s.lost && SaysLeft(s, m, c) :: s.clients[c].doc != doc
    ensures c in Present(s, doc, first, start, |s.log|) <==> s.clients[c].Registered()
  {
    assert ClientTaskOk(s, c) && StageOk(s, c);
    var j :| SaysJoined(s, j, c);
    assert j !in s.lost && j in s.log;
    var p :| 0 <= p < |s.log| && s.log[p] == j;
    if HasLeft(s, c) {
      var m :| SaysLeft(s, m, c);
      assert m !in s.lost && m in s.log;
      var q :| 0 <= q < |s.log| && s.log[q] == m;
      GoneIsAbsent(s, doc, first, start, c, q);
    } else {
      assert !LeftRead(s, c, 0, start) && !LeftRead(s, c, start, |s.log|);
      assert c != first ==> !JoinRead(s, c, 0, start);
      assert c != first ==> JoinRead(s, c, start, |s.log|);
    }
  }

  /** A client whose leave is in the log is not counted at its end, wherever the worker began to read. */
  lemma GoneIsAbsent(s: State, doc: Doc, first: ClientId, start: nat, c: ClientId, q: nat)
    requires Inv(s) && AnnounceOk(s) && StartsWithFirst(s, doc, first, start) && !LeftRead(s, first, 0, start)
    requires c < |s.clients| && s.clients[c].doc == doc && q < |s.log| && SaysLeft(s, s.log[q], c)
    ensures c !in Present(s, doc, first, start, |s.log|)
  {
    if start <= q {
      assert LeftRead(s, c, start, |s.log|);
    } else {
      assert LeftRead(s, c, 0, start);
      forall p | start <= p < |s.log| ensures !SaysJoined(s, s.log[p], c) {
        assert OnceOk(s, s.log[q], s.log[p], c) && OnceOk(s, s.log[p], s.log[q], c);
      }
    }
  }
}
