/** The worker when several messages come in one turn of its event loop. Each handler applies its message
and awaits, so that all messages of the turn have been applied before the first handler asks whether
the document should be closed (collaboration-state-worker/src/index.ts:34-38, documentManager.ts:58-85). */
module WorkerTurns {
  import opened Wrappers
  import opened RoomProtocol
  import opened RoomTheorems
  import opened RoomAnnouncements
  import opened WorkerRuntime
  import opened WorkerSession

  /** What the worker holds after reading the log up to `k`, when turns end at the places in `ends`. */
  function Turned(s: State, doc: Doc, init: Runtime, start: nat, k: nat, ends: set<nat>): Option<Runtime>
    requires start <= k <= |s.log|
  {
    if k == start then Some(init)
    else
      var rt := Turned(s, doc, init, start, k - 1, ends);
      var next := if OfDoc(s, k - 1, doc) then Taken(rt, s.handed[s.log[k - 1]].body) else rt;
      if k in ends then Tested(next) else next
  }

  /** Nobody was present at the end of some turn. */
  ghost predicate EndedEmpty(s: State, doc: Doc, first: ClientId, start: nat, k: nat, ends: set<nat>) {
    exists j :: start < j <= k && j in ends && Present(s, doc, first, start, j) == {}
  }

  ghost predicate TurnsRight(s: State, doc: Doc, first: ClientId, init: Runtime, start: nat, k: nat, ends: set<nat>)
    requires start <= k <= |s.log|
  {
    var rt := Turned(s, doc, init, start, k, ends);
    && (rt.None? <==> EndedEmpty(s, doc, first, start, k, ends))
    && (rt.Some? ==> rt.value.userCount == |Present(s, doc, first, start, k)|)
  }

  /** However the messages fall into turns, an open document counts the clients whose join and not whose
  leave has been read; it is closed once nobody has been left at the end of a turn. */
  lemma {:induction false} TurnsCountExact(s: State, doc: Doc, first: ClientId, init: Runtime, start: nat, k: nat,
                                           ends: set<nat>)
    requires Inv(s) && AnnounceOk(s) && StartsWithFirst(s, doc, first, start)
    requires start <= k <= |s.log| && init.userCount == 1
    ensures TurnsRight(s, doc, first, init, start, k, ends)
  {
    hide Inv, AnnounceOk, TurnsRight, StoodEmpty;
    if k == start {
      TurnsAtStart(s, doc, first, init, start, ends);
    } else {
      TurnsCountExact(s, doc, first, init, start, k - 1, ends);
      PresentSizeStep(s, doc, first, start, k);
      TurnsStep(s, doc, first, init, start, k, ends);
    }
  }

  lemma TurnsAtStart(s: State, doc: Doc, first: ClientId, init: Runtime, start: nat, ends: set<nat>)
    requires start <= |s.log| && first < |s.clients| && s.clients[first].doc == doc && init.userCount == 1
    ensures TurnsRight(s, doc, first, init, start, start, ends)
  {
    assert Present(s, doc, first, start, start) == {first};
  }

  lemma TurnsStep(s: State, doc: Doc, first: ClientId, init: Runtime, start: nat, k: nat, ends: set<nat>)
    requires start < k <= |s.log| && TurnsRight(s, doc, first, init, start, k - 1, ends)
    requires var before, after := Present(s, doc, first, start, k - 1), Present(s, doc, first, start, k);
             |after| - |before| == Change(s, doc, k)
    ensures TurnsRight(s, doc, first, init, start, k, ends)
  {
    var after := Present(s, doc, first, start, k);
    assert |after| == 0 <==> after == {};
    assert EndedEmpty(s, doc, first, start, k, ends)
      <==> EndedEmpty(s, doc, first, start, k - 1, ends) || (k in ends && after == {});
  }

  /** While the worker that tests after every message is open, turns make no difference to it. */
  lemma {:induction false} OpenIsTurned(s: State, doc: Doc, init: Runtime, start: nat, k: nat, ends: set<nat>)
    requires start <= k <= |s.log| && Worked(s, doc, init, start, k).Some? && init.userCount == 1
    ensures Worked(s, doc, init, start, k).value.userCount > 0
    ensures Turned(s, doc, init, start, k, ends) == Worked(s, doc, init, start, k)
  {
    if start < k {
      assert Worked(s, doc, init, start, k - 1).Some?;
      OpenIsTurned(s, doc, init, start, k - 1, ends);
    }
  }

  /** Turns make no difference exactly if the document, where it stood empty, did so at a turn's end too. */
  lemma TurnsAgreeExactly(s: State, doc: Doc, first: ClientId, init: Runtime, start: nat, k: nat, ends: set<nat>)
    requires Inv(s) && AnnounceOk(s) && StartsWithFirst(s, doc, first, start)
    requires start <= k <= |s.log| && init.userCount == 1
    ensures Turned(s, doc, init, start, k, ends) == Worked(s, doc, init, start, k)
       <==> (StoodEmpty(s, doc, first, start, k) ==> EndedEmpty(s, doc, first, start, k, ends))
  {
    TurnsCountExact(s, doc, first, init, start, k, ends);
    WorkerCountExact(s, doc, first, init, start, k);
    if Worked(s, doc, init, start, k).Some? {
      OpenIsTurned(s, doc, init, start, k, ends);
    }
  }
}
