/** Documents, their permission rows and their lock rows, and what each request does to them
(backend/.../lock/LockService.java, document/DocumentService.java,
internal/collaborationstateworker/WorkerDocumentSyncService.java).

A request is one transaction at one instant. Where the code deletes an expired row and then throws,
the deletion may or may not survive the rollback; `kept` says that it did. The same parameter
covers the deletion that `getLock` attempts inside a read-only transaction. */
module LockModel {
  import opened Wrappers

  type UserId = int
  type DocId = int
  type Instant = int

  datatype LockType = Exclusive | Collaborative
  datatype Level = Owner | Viewer | Editor
  datatype Lock = Lock(kind: LockType, holder: Option<UserId>, expiresAt: Instant)
  datatype Document = Document(owner: UserId, content: string)

  datatype Db = Db(docs: map<DocId, Document>, locks: map<DocId, Lock>, perms: map<(DocId, UserId), Level>)

  /** A request's reply: the lock row it hands back, if any, or the status it is refused with. */
  type Reply = Outcome<Option<Lock>>

  const DEFAULT_TTL := 300

  function Ttl(ttl: Option<int>): int {
    if ttl.Some? then ttl.value else DEFAULT_TTL
  }

  predicate IsExpired(lock: Lock, now: Instant) {
    lock.expiresAt < now
  }

  predicate MayEdit(db: Db, doc: DocId, user: UserId) {
    doc in db.docs && (db.docs[doc].owner == user || ((doc, user) in db.perms && db.perms[(doc, user)] == Editor))
  }

  function NewLock(user: UserId, kind: LockType, now: Instant, ttl: int): Lock {
    Lock(kind, if kind == Exclusive then Some(user) else None, now + ttl)
  }

  function WithLock(db: Db, doc: DocId, lock: Lock): Db {
    db.(locks := db.locks[doc := lock])
  }

  function WithoutLock(db: Db, doc: DocId): Db {
    db.(locks := db.locks - {doc})
  }

  function WithContent(db: Db, doc: DocId, content: string): Db
    requires doc in db.docs
  {
    db.(docs := db.docs[doc := db.docs[doc].(content := content)])
  }

  function Granted(db: Db, doc: DocId, lock: Lock): (Db, Reply) {
    (WithLock(db, doc, lock), Done(Some(lock)))
  }

  /** Refused after deleting an expired row. */
  function RefusedAfterCleanUp(db: Db, doc: DocId, status: nat, kept: bool): (Db, Reply) {
    (if kept then WithoutLock(db, doc) else db, Refused(status))
  }

  datatype Request =
    | Acquire(doc: DocId, user: UserId, ttl: Option<int>, kind: Option<LockType>)
    | Switch(doc: DocId, user: UserId, ttl: Option<int>)
    | Release(doc: DocId, user: UserId)
    | Refresh(doc: DocId, user: UserId, ttl: Option<int>)
    | Look(doc: DocId)
    | WorkerAcquire(doc: DocId)
    | Save(doc: DocId, user: UserId, content: string)
    | WorkerSync(doc: DocId, update: Option<string>, final: bool)
    | Create(doc: DocId, user: UserId, content: string)
    | Remove(doc: DocId, user: UserId)
    | Grant(doc: DocId, user: UserId, level: Level)

  // ---- The code's behaviour: an expired row is noticed when it is met ----

  function AcquireLock(db: Db, doc: DocId, user: UserId, ttl: Option<int>, kind: Option<LockType>,
                       now: Instant): (Db, Reply)
  {
    var requested := if kind.Some? then kind.value else Exclusive;
    if doc !in db.docs then (db, Refused(404))
    else if doc in db.locks && !IsExpired(db.locks[doc], now) then
      HandleLockRequest(db, doc, user, Ttl(ttl), requested, now)
    else Granted(db, doc, NewLock(user, requested, now, Ttl(ttl)))
  }

  function HandleLockRequest(db: Db, doc: DocId, user: UserId, ttl: int, requested: LockType, now: Instant): (Db, Reply)
    requires doc in db.locks
  {
    var current := db.locks[doc];
    if current.kind == requested then
      if requested == Exclusive && current.holder != Some(user) then (db, Refused(423))
      else Granted(db, doc, current.(expiresAt := now + ttl))
    else if current.kind == Exclusive && requested == Collaborative then
      if current.holder != Some(user) then (db, Refused(423))
      else Granted(db, doc, Lock(Collaborative, None, now + ttl))
    else (db, Refused(423))
  }

  function SwitchExclusiveToCollaborative(db: Db, doc: DocId, user: UserId, ttl: Option<int>, now: Instant,
                                          kept: bool): (Db, Reply)
  {
    if doc !in db.docs then (db, Refused(404))
    else if doc !in db.locks then (db, Refused(423))
    else
      var current := db.locks[doc];
      if IsExpired(current, now) then RefusedAfterCleanUp(db, doc, 423, kept)
      else if current.kind != Exclusive then (db, Refused(409))
      else if current.holder != Some(user) then (db, Refused(423))
      else Granted(db, doc, Lock(Collaborative, None, now + Ttl(ttl)))
  }

  function ReleaseLock(db: Db, doc: DocId, user: UserId, now: Instant): (Db, Reply) {
    if doc !in db.docs then (db, Refused(404))
    else if doc !in db.locks then (db, Done(None))
    else if !IsExpired(db.locks[doc], now) && (doc, user) !in db.perms then (db, Refused(403))
    else (WithoutLock(db, doc), Done(None))
  }

  function RefreshLock(db: Db, doc: DocId, user: UserId, ttl: Option<int>, now: Instant): (Db, Reply) {
    if doc !in db.docs then (db, Refused(404))
    else if doc !in db.locks then Granted(db, doc, NewLock(user, Exclusive, now, Ttl(ttl)))
    else
      var current := db.locks[doc];
      if IsExpired(current, now) then Granted(db, doc, NewLock(user, current.kind, now, Ttl(ttl)))
      else if current.kind == Exclusive && current.holder != Some(user) then (db, Refused(423))
      else if current.kind == Collaborative && (doc, user) !in db.perms then (db, Refused(403))
      else Granted(db, doc, current.(expiresAt := now + Ttl(ttl)))
  }

  function GetLock(db: Db, doc: DocId, now: Instant, kept: bool): (Db, Reply) {
    if doc !in db.docs then (db, Refused(404))
    else if doc !in db.locks then (db, Done(None))
    else if IsExpired(db.locks[doc], now) then (if kept then WithoutLock(db, doc) else db, Done(None))
    else (db, Done(Some(db.locks[doc])))
  }

  function AcquireCollaborativeLock(db: Db, doc: DocId, now: Instant): (Db, Reply) {
    if doc !in db.docs then (db, Refused(404))
    else if doc !in db.locks || IsExpired(db.locks[doc], now) then
      Granted(db, doc, Lock(Collaborative, None, now + DEFAULT_TTL))
    else if db.locks[doc].kind == Exclusive then (db, Refused(409))
    else Granted(db, doc, db.locks[doc].(expiresAt := now + DEFAULT_TTL))
  }

  function SaveDocument(db: Db, doc: DocId, user: UserId, content: string, now: Instant, kept: bool): (Db, Reply) {
    if doc !in db.docs then (db, Refused(404))
    else if !MayEdit(db, doc, user) then (db, Refused(403))
    else if doc !in db.locks then (db, Refused(423))
    else
      var lock := db.locks[doc];
      if IsExpired(lock, now) then RefusedAfterCleanUp(db, doc, 423, kept)
      else if lock.kind == Exclusive && lock.holder != Some(user) then (db, Refused(423))
      else (WithContent(db, doc, content), Done(None))
  }

  /** A periodic sync writes content and lock in one statement; a final one gives the lock up. For an
  unknown document the first breaks the foreign key of the lock row, the second finds nothing. */
  function SyncDocument(db: Db, doc: DocId, update: Option<string>, final: bool, now: Instant): (Db, Reply) {
    if update.None? then (db, Refused(400))
    else if doc !in db.docs then (db, Refused(if final then 404 else 500))
    else if !final then
      (WithLock(WithContent(db, doc, update.value), doc, Lock(Collaborative, None, now + DEFAULT_TTL)), Done(None))
    else (WithContent(WithoutLock(db, doc), doc, update.value), Done(None))
  }

  function CreateDocument(db: Db, doc: DocId, owner: UserId, content: string): (Db, Reply) {
    if doc in db.docs then (db, Refused(500))
    else
      (Db(db.docs[doc := Document(owner, content)], db.locks, db.perms[(doc, owner) := Owner]), Done(None))
  }

  function DeleteDocument(db: Db, doc: DocId, user: UserId): (Db, Reply) {
    if doc !in db.docs then (db, Refused(404))
    else if db.docs[doc].owner != user then (db, Refused(403))
    else
      (Db(db.docs - {doc}, db.locks - {doc}, map k | k in db.perms && k.0 != doc :: db.perms[k]), Done(None))
  }

  /** A permission row written by the sharing workflow. */
  function GrantAccess(db: Db, doc: DocId, user: UserId, level: Level): (Db, Reply) {
    if doc !in db.docs || (doc, user) in db.perms then (db, Refused(500))
    else (db.(perms := db.perms[(doc, user) := level]), Done(None))
  }

  function Serve(db: Db, q: Request, now: Instant, kept: bool): (Db, Reply) {
    match q
    case Acquire(doc, user, ttl, kind) => AcquireLock(db, doc, user, ttl, kind, now)
    case Switch(doc, user, ttl) => SwitchExclusiveToCollaborative(db, doc, user, ttl, now, kept)
    case Release(doc, user) => ReleaseLock(db, doc, user, now)
    case Refresh(doc, user, ttl) => RefreshLock(db, doc, user, ttl, now)
    case Look(doc) => GetLock(db, doc, now, kept)
    case WorkerAcquire(doc) => AcquireCollaborativeLock(db, doc, now)
    case Save(doc, user, content) => SaveDocument(db, doc, user, content, now, kept)
    case WorkerSync(doc, update, final) => SyncDocument(db, doc, update, final, now)
    case Create(doc, user, content) => CreateDocument(db, doc, user, content)
    case Remove(doc, user) => DeleteDocument(db, doc, user)
    case Grant(doc, user, level) => GrantAccess(db, doc, user, level)
  }

  /** A history of the tables under a clock that never goes back. */
  ghost predicate Run(dbs: seq<Db>, qs: seq<Request>, nows: seq<Instant>, kept: seq<bool>) {
    && |dbs| == |qs| + 1 && |nows| == |kept| == |qs|
    && (forall i | 0 <= i < |qs| :: dbs[i + 1] == Serve(dbs[i], qs[i], nows[i], kept[i]).0)
    && (forall i | 0 < i < |qs| :: nows[i - 1] <= nows[i])
  }

  const EMPTY := Db(map[], map[], map[])

  /** Kept by every request: rows belong to documents, and a lock names a holder exactly when it is
  exclusive. */
  ghost predicate Consistent(db: Db) {
    && (forall d | d in db.locks :: d in db.docs && (db.locks[d].kind == Exclusive <==> db.locks[d].holder.Some?))
    && (forall k | k in db.perms :: k.0 in db.docs)
    && (forall d | d in db.docs :: (d, db.docs[d].owner) in db.perms && db.perms[(d, db.docs[d].owner)] == Owner)
  }

  lemma TableRequestKeepsConsistent(db: Db, q: Request, now: Instant, kept: bool)
    requires Consistent(db) && (q.Create? || q.Remove? || q.Grant?)
    ensures Consistent(Serve(db, q, now, kept).0)
  {}

  /** Requests that leave documents' owners and the permission rows alone, and give no document a lock row
  that names a holder without being exclusive. */
  lemma LockRequestKeepsConsistent(db: Db, q: Request, now: Instant, kept: bool)
    requires Consistent(db) && !q.Create? && !q.Remove? && !q.Grant?
    ensures Consistent(Serve(db, q, now, kept).0)
  {
    var db' := Serve(db, q, now, kept).0;
    OwnersUntouched(db, q, now, kept);
    forall d | d in db'.locks
      ensures d in db'.docs && (db'.locks[d].kind == Exclusive <==> db'.locks[d].holder.Some?)
    {
      if q.Acquire? || q.Refresh? {
        GrantingLockOk(db, q, now, kept, d);
      } else {
        OtherLockOk(db, q, now, kept, d);
      }
    }
  }

  lemma OwnersUntouched(db: Db, q: Request, now: Instant, kept: bool)
    requires !q.Create? && !q.Remove? && !q.Grant?
    ensures var db' := Serve(db, q, now, kept).0;
            && db'.perms == db.perms && db'.docs.Keys == db.docs.Keys
            && forall d | d in db.docs :: db'.docs[d].owner == db.docs[d].owner
  {}

  lemma GrantingLockOk(db: Db, q: Request, now: Instant, kept: bool, d: DocId)
    requires Consistent(db) && (q.Acquire? || q.Refresh?) && d in Serve(db, q, now, kept).0.locks
    ensures var db' := Serve(db, q, now, kept).0;
            d in db'.docs && (db'.locks[d].kind == Exclusive <==> db'.locks[d].holder.Some?)
  {}

  lemma OtherLockOk(db: Db, q: Request, now: Instant, kept: bool, d: DocId)
    requires Consistent(db) && !q.Acquire? && !q.Refresh? && !q.Create? && !q.Remove? && !q.Grant?
    requires d in Serve(db, q, now, kept).0.locks
    ensures var db' := Serve(db, q, now, kept).0;
            d in db'.docs && (db'.locks[d].kind == Exclusive <==> db'.locks[d].holder.Some?)
  {}

  lemma ServeKeepsConsistent(db: Db, q: Request, now: Instant, kept: bool)
    requires Consistent(db)
    ensures Consistent(Serve(db, q, now, kept).0)
  {
    if q.Create? || q.Remove? || q.Grant? {
      TableRequestKeepsConsistent(db, q, now, kept);
    } else {
      LockRequestKeepsConsistent(db, q, now, kept);
    }
  }

  lemma {:induction false} ReachableConsistent(dbs: seq<Db>, qs: seq<Request>, nows: seq<Instant>, kept: seq<bool>,
      n: nat)
    requires Run(dbs, qs, nows, kept) && dbs[0] == EMPTY && n <= |qs|
    ensures Consistent(dbs[n])
  {
    if n > 0 {
      ReachableConsistent(dbs, qs, nows, kept, n - 1);
      ServeKeepsConsistent(dbs[n - 1], qs[n - 1], nows[n - 1], kept[n - 1]);
    }
  }
}
