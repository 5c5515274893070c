/** Invites, access requests and the permission rows that come of them (sharing/SharingService.java),
on top of the documents, permissions and locks of LockModel. */
module Sharing {
  import opened Wrappers
  import opened LockModel
  import LockService

  type InviteToken = int
  type RequestId = int

  datatype Invite = Invite(doc: DocId, creator: UserId, autoApprove: bool, expiresAt: Option<Instant>)
  datatype AccessRequest = AccessRequest(doc: DocId, requester: UserId)

  datatype Store = Store(db: Db, invites: map<InviteToken, Invite>, requests: map<RequestId, AccessRequest>)

  const NOTHING := Store(EMPTY, map[], map[])

  datatype Answer = Row(lock: Option<Lock>) | Invited(token: InviteToken) | Access | Pending(id: RequestId) | Processed

  type Result = Outcome<Answer>

  const INVITE_LIFETIME := 3 * 3600

  /** Tokens and row ids are drawn outside; one already taken breaks its unique constraint. */
  datatype Call =
    | Api(q: LockModel.Request, kept: bool)
    | CreateInvite(doc: DocId, user: UserId, autoApprove: bool, expiresAt: Option<Instant>, token: InviteToken)
    | UseInvite(token: InviteToken, user: UserId, id: RequestId)
    | ProcessRequest(id: RequestId, user: UserId, approve: bool, editor: bool)

  function ExpiryOf(expiresAt: Option<Instant>, now: Instant): Instant {
    if expiresAt.None? then now + INVITE_LIFETIME else expiresAt.value
  }

  predicate HasExpired(invite: Invite, now: Instant) {
    invite.expiresAt.Some? && invite.expiresAt.value < now
  }

  function NewInvite(st: Store, doc: DocId, creator: UserId, autoApprove: bool, expiresAt: Option<Instant>,
                     token: InviteToken, now: Instant): (Store, Result)
  {
    if doc !in st.db.docs then (st, Refused(404))
    else if st.db.docs[doc].owner != creator then (st, Refused(403))
    else if token in st.invites then (st, Refused(500))
    else
      (st.(invites := st.invites[token := Invite(doc, creator, autoApprove, Some(ExpiryOf(expiresAt, now)))]),
       Done(Invited(token)))
  }

  predicate IsPending(st: Store, id: RequestId, access: AccessRequest) {
    id in st.requests && st.requests[id] == access
  }

  /** `findByDocumentAndRequester`. */
  ghost function PendingFor(st: Store, access: AccessRequest): Option<RequestId> {
    if exists id :: IsPending(st, id, access) then
      var id :| IsPending(st, id, access);
      Some(id)
    else None
  }

  ghost function Use(st: Store, token: InviteToken, user: UserId, id: RequestId, now: Instant): (Store, Result) {
    if token !in st.invites then (st, Refused(404))
    else if HasExpired(st.invites[token], now) then (st, Refused(400))
    else
      var doc := st.invites[token].doc;
      if st.invites[token].autoApprove then
        if (doc, user) in st.db.perms then (st, Done(Access))
        else
          var (db, r) := GrantAccess(st.db, doc, user, Viewer);
          (st.(db := db), if r.Done? then Done(Access) else Refused(r.status))
      else
        var pending := PendingFor(st, AccessRequest(doc, user));
        if pending.Some? then (st, Done(Pending(pending.value)))
        else if id in st.requests then (st, Refused(500))
        else (st.(requests := st.requests[id := AccessRequest(doc, user)]), Done(Pending(id)))
  }

  function Process(st: Store, id: RequestId, processor: UserId, approve: bool, level: Option<Level>): (Store, Result) {
    if id !in st.requests then (st, Refused(404))
    else
      var access := st.requests[id];
      if access.doc !in st.db.docs || st.db.docs[access.doc].owner != processor then (st, Refused(403))
      else if !approve then (st.(requests := st.requests - {id}), Done(Processed))
      else
        var (db, r) := GrantAccess(st.db, access.doc, access.requester, if level.None? then Viewer else level.value);
        if r.Refused? then (st, Refused(r.status)) else (Store(db, st.invites, st.requests - {id}), Done(Processed))
  }

  /** The controller's reading of the `level` parameter. */
  function LevelAsked(editor: bool): Level {
    if editor then Editor else Viewer
  }

  /** The other requests; deleting a document takes its invites and access requests along. */
  function ServeApi(st: Store, q: LockModel.Request, now: Instant, kept: bool): (Store, Result) {
    var (db, r) := LockModel.Serve(st.db, q, now, kept);
    if r.Refused? then (st.(db := db), Refused(r.status))
    else if q.Remove? then (Without(st, q.doc).(db := db), Done(Row(r.value)))
    else (st.(db := db), Done(Row(r.value)))
  }

  function Without(st: Store, doc: DocId): Store {
    Store(st.db, map t | t in st.invites && st.invites[t].doc != doc :: st.invites[t],
          map id | id in st.requests && st.requests[id].doc != doc :: st.requests[id])
  }

  ghost function Serve(st: Store, c: Call, now: Instant): (Store, Result) {
    match c
    case Api(q, kept) => ServeApi(st, q, now, kept)
    case CreateInvite(doc, user, autoApprove, expiresAt, token) =>
      NewInvite(st, doc, user, autoApprove, expiresAt, token, now)
    case UseInvite(token, user, id) => Use(st, token, user, id, now)
    case ProcessRequest(id, user, approve, editor) => Process(st, id, user, approve, Some(LevelAsked(editor)))
  }

  // ---- What every call keeps ----

  /** Every row belongs to a document; the owner, and nobody else, has the OWNER row; invites are the
  owner's own and expire; a user has at most one request pending for a document. */
  ghost predicate Sound(st: Store) {
    && Consistent(st.db)
    && OwnersAlone(st.db)
    && (forall t | t in st.invites :: InviteSound(st, st.invites[t]))
    && (forall id | id in st.requests :: st.requests[id].doc in st.db.docs)
    && OnePending(st)
  }

  ghost predicate OwnersAlone(db: Db)
    requires Consistent(db)
  {
    forall k | k in db.perms :: db.perms[k] == Owner ==> db.docs[k.0].owner == k.1
  }

  predicate InviteSound(st: Store, invite: Invite) {
    invite.doc in st.db.docs && invite.creator == st.db.docs[invite.doc].owner && invite.expiresAt.Some?
  }

  ghost predicate OnePending(st: Store) {
    forall a, b | a in st.requests && b in st.requests && st.requests[a] == st.requests[b] :: a == b
  }

  /** Permission rows are written by the calls below only. */
  predicate Allowed(c: Call) {
    c.Api? ==> !c.q.Grant?
  }

  /** No other request changes who owns a document, or lifts anyone to OWNER. */
  lemma ApiKeepsOwners(db: Db, q: LockModel.Request, now: Instant, kept: bool)
    requires Consistent(db) && OwnersAlone(db) && !q.Grant?
    ensures var (db', r) := LockModel.Serve(db, q, now, kept);
            && Consistent(db') && OwnersAlone(db')
            && (forall d | d in db.docs && !(q.Remove? && r.Done? && q.doc == d) ::
                  d in db'.docs && db'.docs[d].owner == db.docs[d].owner)
  {
    ServeKeepsConsistent(db, q, now, kept);
    if q.Create? || q.Remove? {
      TableRequestKeepsOwners(db, q, now, kept);
    } else {
      OwnersUntouched(db, q, now, kept);
    }
  }

  lemma TableRequestKeepsOwners(db: Db, q: LockModel.Request, now: Instant, kept: bool)
    requires Consistent(db) && OwnersAlone(db) && (q.Create? || q.Remove?)
    requires Consistent(LockModel.Serve(db, q, now, kept).0)
    ensures var (db', r) := LockModel.Serve(db, q, now, kept);
            && OwnersAlone(db')
            && (forall d | d in db.docs && !(q.Remove? && r.Done? && q.doc == d) ::
                  d in db'.docs && db'.docs[d].owner == db.docs[d].owner)
  {}

  lemma ApiKeepsSound(st: Store, q: LockModel.Request, now: Instant, kept: bool)
    requires Sound(st) && !q.Grant?
    ensures Sound(ServeApi(st, q, now, kept).0)
  {
    ApiKeepsOwners(st.db, q, now, kept);
    var (st', r) := ServeApi(st, q, now, kept);
    forall t | t in st'.invites ensures InviteSound(st', st'.invites[t]) {
      assert InviteSound(st, st.invites[t]);
    }
  }

  lemma UseKeepsSound(st: Store, token: InviteToken, user: UserId, id: RequestId, now: Instant)
    requires Sound(st)
    ensures Sound(Use(st, token, user, id, now).0)
  {
    var st' := Use(st, token, user, id, now).0;
    assert st'.invites == st.invites && st'.db.docs == st.db.docs;
    if st'.requests != st.requests {
      var access := AccessRequest(st.invites[token].doc, user);
      assert PendingFor(st, access).None?;
      forall a | a in st.requests ensures st.requests[a] != access {
        assert IsPending(st, a, access) <==> st.requests[a] == access;
      }
    }
  }

  lemma ServeKeepsSound(st: Store, c: Call, now: Instant)
    requires Sound(st) && Allowed(c)
    ensures Sound(Serve(st, c, now).0)
  {
    match c
    case Api(q, kept) => ApiKeepsSound(st, q, now, kept);
    case CreateInvite(doc, user, autoApprove, expiresAt, token) =>
    case UseInvite(token, user, id) => UseKeepsSound(st, token, user, id, now);
    case ProcessRequest(id, user, approve, editor) =>
  }

  /** To the tables of LockModel every call is one of its requests, or nothing. */
  lemma EveryCallIsOneRequest(st: Store, c: Call, now: Instant)
    requires Sound(st)
    ensures Serve(st, c, now).0.db == st.db
         || exists q: LockModel.Request, kept: bool :: Serve(st, c, now).0.db == LockModel.Serve(st.db, q, now, kept).0
  {
    match c
    case Api(q, kept) => assert Serve(st, c, now).0.db == LockModel.Serve(st.db, q, now, kept).0;
    case CreateInvite(doc, user, autoApprove, expiresAt, token) =>
    case UseInvite(token, user, id) =>
      if token in st.invites {
        var q := Grant(st.invites[token].doc, user, Viewer);
        assert Serve(st, c, now).0.db == st.db || Serve(st, c, now).0.db == LockModel.Serve(st.db, q, now, false).0;
      }
    case ProcessRequest(id, user, approve, editor) =>
      if id in st.requests {
        var q := Grant(st.requests[id].doc, st.requests[id].requester, LevelAsked(editor));
        assert Serve(st, c, now).0.db == st.db || Serve(st, c, now).0.db == LockModel.Serve(st.db, q, now, false).0;
      }
  }

  /** A processed request is granted exactly when the document's owner approves it and the requester has
  no permission row yet; with a row, of whatever level, approval fails and the request stays. */
  lemma ApprovalExactly(st: Store, id: RequestId, user: UserId, editor: bool, now: Instant)
    requires Sound(st) && id in st.requests
    ensures var access := st.requests[id];
            var (st', r) := Serve(st, ProcessRequest(id, user, true, editor), now);
            && (r.Done? <==> user == st.db.docs[access.doc].owner && (access.doc, access.requester) !in st.db.perms)
            && (r.Done? ==> id !in st'.requests && (access.doc, access.requester) in st'.db.perms
                            && st'.db.perms[(access.doc, access.requester)] == LevelAsked(editor))
            && (r.Refused? ==> st' == st)
  {}

  /** Deleting a document leaves no row of any kind behind. */
  lemma DeletionLeavesNothing(st: Store, doc: DocId, user: UserId, now: Instant, kept: bool)
    requires Sound(st)
    ensures var (st', r) := Serve(st, Api(Remove(doc, user), kept), now);
            r.Done? ==>
              && doc !in st'.db.docs && doc !in st'.db.locks
              && (forall u :: (doc, u) !in st'.db.perms)
              && (forall t | t in st'.invites :: st'.invites[t].doc != doc)
              && (forall id | id in st'.requests :: st'.requests[id].doc != doc)
  {
    ApiKeepsSound(st, Remove(doc, user), now, kept);
  }

  /** Until its document is deleted a permission row stays as it was first written. */
  lemma RowsAreNeverChanged(st: Store, c: Call, now: Instant, doc: DocId, user: UserId)
    requires Sound(st) && Allowed(c) && (doc, user) in st.db.perms
    requires !(c.Api? && c.q.Remove? && c.q.doc == doc && c.q.user == st.db.docs[doc].owner)
    ensures (doc, user) in Serve(st, c, now).0.db.perms
    ensures Serve(st, c, now).0.db.perms[(doc, user)] == st.db.perms[(doc, user)]
  {}

  // ---- SharingService as code ----

  class SharingService {
    const backend: LockService.Backend
    var invites: map<InviteToken, Invite>
    var requests: map<RequestId, AccessRequest>

    ghost function Tables(): Store
      reads this, backend
    {
      Store(backend.Tables(), invites, requests)
    }

    constructor (backend: LockService.Backend)
      ensures this.backend == backend && Tables() == Store(backend.Tables(), map[], map[])
    {
      this.backend := backend;
      invites, requests := map[], map[];
    }

    method CreateInvite(doc: DocId, creator: UserId, autoApprove: bool, expiresAt: Option<Instant>,
        token: InviteToken, now: Instant)
      returns (r: Result)
      modifies this`invites
      ensures (Tables(), r) == NewInvite(old(Tables()), doc, creator, autoApprove, expiresAt, token, now)
    {
      if doc !in backend.docs {
        return Refused(404);
      }
      if backend.docs[doc].owner != creator {
        return Refused(403);
      }
      var expiry := now + INVITE_LIFETIME;
      if expiresAt.Some? {
        expiry := expiresAt.value;
      }
      if token in invites {
        return Refused(500);
      }
      invites := invites[token := Invite(doc, creator, autoApprove, Some(expiry))];
      r := Done(Invited(token));
    }

    method FindPending(doc: DocId, user: UserId) returns (found: Option<RequestId>)
      requires Sound(Tables())
      ensures found == PendingFor(Tables(), AccessRequest(doc, user))
    {
      if id :| id in requests && requests[id] == AccessRequest(doc, user) {
        assert IsPending(Tables(), id, AccessRequest(doc, user));
        return Some(id);
      }
      found := None;
    }

    method UseInvite(token: InviteToken, requester: UserId, id: RequestId, now: Instant) returns (r: Result)
      requires Sound(Tables())
      modifies this`requests, backend`perms
      ensures (Tables(), r) == Use(old(Tables()), token, requester, id, now)
    {
      if token !in invites {
        return Refused(404);
      }
      var invite := invites[token];
      if invite.expiresAt.Some? && invite.expiresAt.value < now {
        return Refused(400);
      }
      if invite.autoApprove {
        if (invite.doc, requester) !in backend.perms {
          var saved := backend.SavePermission(invite.doc, requester, Viewer);
          assert saved.Done?;
        }
        return Done(Access);
      }
      var existing := FindPending(invite.doc, requester);
      if existing.Some? {
        return Done(Pending(existing.value));
      }
      if id in requests {
        return Refused(500);
      }
      requests := requests[id := AccessRequest(invite.doc, requester)];
      r := Done(Pending(id));
    }

    method ProcessRequest(id: RequestId, processor: UserId, approve: bool, level: Option<Level>) returns (r: Result)
      requires Sound(Tables())
      modifies this`requests, backend`perms
      ensures (Tables(), r) == Process(old(Tables()), id, processor, approve, level)
    {
      if id !in requests {
        return Refused(404);
      }
      var access := requests[id];
      if backend.docs[access.doc].owner != processor {
        return Refused(403);
      }
      if approve {
        var granted := Viewer;
        if level.Some? {
          granted := level.value;
        }
        var saved := backend.SavePermission(access.doc, access.requester, granted);
        if saved.Refused? {
          return Refused(saved.status);
        }
      }
      requests := requests - {id};
      r := Done(Processed);
    }

    /** `DocumentService.deleteDocument`, with the rows of this service. */
    method DeleteDocument(doc: DocId, user: UserId, now: Instant, kept: bool) returns (r: Result)
      modifies this, backend
      ensures (Tables(), r) == ServeApi(old(Tables()), Remove(doc, user), now, kept)
    {
      var deleted := backend.DeleteDocument(doc, user);
      if deleted.Refused? {
        return Refused(deleted.status);
      }
      requests := map id | id in requests && requests[id].doc != doc :: requests[id];
      invites := map t | t in invites && invites[t].doc != doc :: invites[t];
      r := Done(Row(deleted.value));
    }
  }
}
