/** The worker's map of participants: whom it lists as taking part
(collaboration-state-worker/src/documentRuntime.ts:93-111).

The map is keyed by user while the count counts connections, so a user connected twice is struck off
when one of the two connections ends. The module proves that this is the only way to go wrong;
WorkerScenarios shows that it happens. */
module WorkerRoster {
  import opened Envelopes
  import opened RoomProtocol
  import opened RoomInvariants
  import opened RoomTheorems
  import opened RoomAnnouncements
  import opened WorkerRuntime
  import opened WorkerSession

  /** Announcements name the user whose client makes them. */
  ghost predicate AnnouncesSelf(s: State, m: MsgId)
    requires ValidMsg(s, m)
  {
    var cl := s.clients[s.handed[m].sender];
    match s.handed[m].body
    case Joined(user, name) => user == cl.user && name == cl.name
    case Left(user, name) => user == cl.user && name == cl.name
    case _ => true
  }

  ghost predicate BodiesOk(s: State) {
    forall m: MsgId | ValidMsg(s, m) :: AnnouncesSelf(s, m)
  }

  lemma KeepsBodies(s: State, a: Step)
    requires Sane(s) && BodiesOk(s) && Enabled(s, a)
    ensures BodiesOk(Next(s, a))
  {
    var s' := Next(s, a);
    StepExtends(s, a);
    forall m: MsgId | ValidMsg(s', m) ensures AnnouncesSelf(s', m) {
      if m < |s.handed| {
        assert AnnouncesSelf(s, m) && SameClient(s.clients[s.handed[m].sender], s'.clients[s.handed[m].sender]);
      }
    }
  }

  lemma {:induction false} ReachableBodies(ss: seq<State>, steps: seq<Step>, n: nat)
    requires Run(ss, steps) && n <= |steps|
    ensures BodiesOk(ss[n])
  {
    if n > 0 {
      ReachableBodies(ss, steps, n - 1);
      ReachableInv(ss, steps, n - 1);
      KeepsBodies(ss[n - 1], steps[n - 1]);
    }
  }

  ghost function Users(s: State, cs: set<ClientId>): set<int>
    requires forall c | c in cs :: c < |s.clients|
  {
    set c | c in cs :: s.clients[c].user
  }

  /** The open document's runtime lists exactly the users of the clients that are present. */
  ghost predicate RosterRight(s: State, doc: Doc, first: ClientId, init: Runtime, start: nat, k: nat)
    requires start <= k <= |s.log| && Worked(s, doc, init, start, k).Some?
  {
    Worked(s, doc, init, start, k).value.participants.Keys == Users(s, Present(s, doc, first, start, k))
  }

  /** The entry just read is the leave of a client whose user is still there with another one. */
  ghost predicate StrikesPresentUser(s: State, doc: Doc, first: ClientId, start: nat, k: nat)
    requires start < k <= |s.log|
  {
    && OfDoc(s, k - 1, doc) && s.handed[s.log[k - 1]].body.Left?
    && s.handed[s.log[k - 1]].body.user in Users(s, Present(s, doc, first, start, k))
  }

  /** What an entry about `user` makes of a set of users. */
  function Listed(users: set<int>, body: Body): set<int> {
    match body
    case Joined(user, _) => users + {user}
    case Left(user, _) => users - {user}
    case _ => users
  }

  lemma WorkedLists(s: State, doc: Doc, init: Runtime, start: nat, k: nat)
    requires start < k <= |s.log| && Worked(s, doc, init, start, k).Some?
    ensures Worked(s, doc, init, start, k - 1).Some?
    ensures var before, after := Worked(s, doc, init, start, k - 1).value, Worked(s, doc, init, start, k).value;
            after.participants.Keys == if OfDoc(s, k - 1, doc)
                then Listed(before.participants.Keys, s.handed[s.log[k - 1]].body)
                                       else before.participants.Keys
  {}

  lemma UsersChange(s: State, before: set<ClientId>, c: ClientId)
    requires c < |s.clients| && forall d | d in before :: d < |s.clients|
    ensures Users(s, before + {c}) == Users(s, before) + {s.clients[c].user}
    ensures c in before ==> Users(s, before) == Users(s, before - {c}) + {s.clients[c].user}
  {}

  /** Reading one entry keeps the list right exactly unless it is such a leave. */
  lemma RosterKeptExactly(s: State, doc: Doc, first: ClientId, init: Runtime, start: nat, k: nat)
    requires Inv(s) && AnnounceOk(s) && BodiesOk(s) && StartsWithFirst(s, doc, first, start) && start < k <= |s.log|
    requires Worked(s, doc, init, start, k).Some? && Worked(s, doc, init, start, k - 1).Some?
    requires RosterRight(s, doc, first, init, start, k - 1)
    ensures RosterRight(s, doc, first, init, start, k) <==> !StrikesPresentUser(s, doc, first, start, k)
  {
    hide Inv, AnnounceOk, BodiesOk, StartsWithFirst, Worked;
    WorkedLists(s, doc, init, start, k);
    PresentStep(s, doc, first, start, k);
    if OfDoc(s, k - 1, doc) {
      AnnouncedUser(s, k - 1);
      UsersChange(s, Present(s, doc, first, start, k - 1), s.handed[s.log[k - 1]].sender);
    }
  }

  lemma AnnouncedUser(s: State, p: nat)
    requires BodiesOk(s) && p < |s.log| && ValidMsg(s, s.log[p])
    ensures var body := s.handed[s.log[p]].body;
            body.Joined? || body.Left? ==> body.user == s.clients[s.handed[s.log[p]].sender].user
  {
    assert AnnouncesSelf(s, s.log[p]);
  }

  /** Over a whole session, while the document is open and nobody leaves with a second connection open, the
  worker lists exactly the users that are there. */
  lemma {:induction false} RosterIsRight(s: State, doc: Doc, first: ClientId, init: Runtime, start: nat, k: nat)
    requires Inv(s) && AnnounceOk(s) && BodiesOk(s) && StartsWithFirst(s, doc, first, start) && start <= k <= |s.log|
    requires init.participants.Keys == {s.clients[first].user} && Worked(s, doc, init, start, k).Some?
    requires forall j | start < j <= k :: !StrikesPresentUser(s, doc, first, start, j)
    ensures RosterRight(s, doc, first, init, start, k)
  {
    if k == start {
      assert Present(s, doc, first, start, k) == {first};
    } else {
      WorkedLists(s, doc, init, start, k);
      RosterIsRight(s, doc, first, init, start, k - 1);
      RosterKeptExactly(s, doc, first, init, start, k);
    }
  }
}
