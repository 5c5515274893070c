/** What holds over whole histories of the lock tables. */
module LockRuns {
  import opened Wrappers
  import opened LockModel

  // ---- A machine that erases a lock the moment it expires ----

  function Erase(db: Db, now: Instant): Db {
    db.(locks := map d | d in db.locks && !IsExpired(db.locks[d], now) :: db.locks[d])
  }

  /** Requests over tables that hold live rows only: no test for expiry anywhere. */
  function Eager(db: Db, q: Request, now: Instant): (Db, Reply) {
    if q.doc !in db.docs && !q.Create? && !q.Grant? && !q.WorkerSync? then (db, Refused(404))
    else
      var row := if q.doc in db.locks then Some(db.locks[q.doc]) else None;
      match q
      case Acquire(doc, user, ttl, kind) =>
        var requested := if kind == Some(Collaborative) then Collaborative else Exclusive;
        if row.Some? && row.value.kind == Exclusive && row.value.holder != Some(user) then (db, Refused(423))
        else if row.Some? && row.value.kind == Collaborative && requested == Exclusive then (db, Refused(423))
        else Granted(db, doc, NewLock(user, requested, now, Ttl(ttl)))
      case Switch(doc, user, ttl) =>
        if row.None? then (db, Refused(423))
        else if row.value.kind == Collaborative then (db, Refused(409))
        else if row.value.holder != Some(user) then (db, Refused(423))
        else Granted(db, doc, Lock(Collaborative, None, now + Ttl(ttl)))
      case Release(doc, user) =>
        if row.None? then (db, Done(None))
        else if (doc, user) !in db.perms then (db, Refused(403))
        else (WithoutLock(db, doc), Done(None))
      case Refresh(doc, user, ttl) =>
        if row.None? then Granted(db, doc, Lock(Exclusive, Some(user), now + Ttl(ttl)))
        else if row.value.kind == Exclusive && row.value.holder != Some(user) then (db, Refused(423))
        else if row.value.kind == Collaborative && (doc, user) !in db.perms then (db, Refused(403))
        else Granted(db, doc, row.value.(expiresAt := now + Ttl(ttl)))
      case Look(_) => (db, Done(row))
      case WorkerAcquire(doc) =>
        if row.None? then Granted(db, doc, Lock(Collaborative, None, now + DEFAULT_TTL))
        else if row.value.kind == Exclusive then (db, Refused(409))
        else Granted(db, doc, row.value.(expiresAt := now + DEFAULT_TTL))
      case Save(doc, user, content) =>
        if !MayEdit(db, doc, user) then (db, Refused(403))
        else if row.None? || (row.value.kind == Exclusive && row.value.holder != Some(user)) then (db, Refused(423))
        else (WithContent(db, doc, content), Done(None))
      case WorkerSync(doc, update, final) => SyncDocument(db, doc, update, final, now)
      case Create(doc, user, content) => CreateDocument(db, doc, user, content)
      case Remove(doc, user) => DeleteDocument(db, doc, user)
      case Grant(doc, user, level) => GrantAccess(db, doc, user, level)
  }

  /** The one request that can tell an expired row from none: it takes over the row's type. */
  predicate InheritsType(db: Db, q: Request, now: Instant) {
    && q.Refresh? && q.doc in db.docs && q.doc in db.locks
    && IsExpired(db.locks[q.doc], now) && db.locks[q.doc].kind == Collaborative
  }

  lemma ErasedRow(db: Db, d: DocId, now: Instant)
    ensures d in Erase(db, now).locks <==> d in db.locks && !IsExpired(db.locks[d], now)
    ensures d in Erase(db, now).locks ==> Erase(db, now).locks[d] == db.locks[d]
  {}

  lemma EraseTwice(db: Db, now: Instant, later: Instant)
    requires now <= later
    ensures Erase(Erase(db, now), later) == Erase(db, later)
  {
    ErasedRows(db, now);
    ErasedRows(Erase(db, now), later);
    ErasedRows(db, later);
    assert Erase(Erase(db, now), later).locks == Erase(db, later).locks;
  }

  lemma ErasedRows(db: Db, now: Instant)
    ensures forall d :: d in Erase(db, now).locks <==> d in db.locks && !IsExpired(db.locks[d], now)
    ensures forall d :: d in Erase(db, now).locks ==> Erase(db, now).locks[d] == db.locks[d]
  {}

  lemma EraseWithLock(db: Db, d: DocId, lock: Lock, now: Instant)
    ensures Erase(WithLock(db, d, lock), now) == Erase(WithLock(Erase(db, now), d, lock), now)
  {
    assert Erase(WithLock(db, d, lock), now).locks == Erase(WithLock(Erase(db, now), d, lock), now).locks;
  }

  lemma EraseWithoutLock(db: Db, d: DocId, now: Instant)
    ensures Erase(WithoutLock(db, d), now) == Erase(WithoutLock(Erase(db, now), d), now)
    ensures d !in Erase(db, now).locks ==> Erase(WithoutLock(db, d), now) == Erase(Erase(db, now), now)
  {
    assert Erase(WithoutLock(db, d), now).locks == Erase(WithoutLock(Erase(db, now), d), now).locks;
    if d !in Erase(db, now).locks {
      assert Erase(WithoutLock(db, d), now).locks == Erase(Erase(db, now), now).locks;
    }
  }

  lemma EraseWithContent(db: Db, d: DocId, content: string, now: Instant)
    requires d in db.docs
    ensures Erase(WithContent(db, d, content), now) == Erase(WithContent(Erase(db, now), d, content), now)
  {
    EraseTwice(db, now, now);
    assert Erase(WithContent(db, d, content), now).locks == Erase(db, now).locks;
    assert Erase(WithContent(Erase(db, now), d, content), now).locks == Erase(Erase(db, now), now).locks;
  }

  /** Lazy and eager answer alike and stay related. */
  ghost predicate Alike(db: Db, q: Request, now: Instant, kept: bool) {
    var (lazy, reply) := Serve(db, q, now, kept);
    var (eager, reply') := Eager(Erase(db, now), q, now);
    reply == reply' && Erase(lazy, now) == Erase(eager, now)
  }

  lemma RowRequestsAlike(db: Db, q: Request, now: Instant, kept: bool)
    requires Consistent(db) && (q.Acquire? || q.Switch? || q.Release? || q.Look? || q.WorkerAcquire?)
    ensures Alike(db, q, now, kept)
  {
    var d := q.doc;
    ErasedRow(db, d, now);
    EraseTwice(db, now, now);
    EraseWithoutLock(db, d, now);
    var (lazy, reply) := Serve(db, q, now, kept);
    if reply.Done? && reply.value.Some? {
      EraseWithLock(db, d, reply.value.value, now);
    }
  }

  lemma RefreshAlikeExactly(db: Db, q: Request, now: Instant, kept: bool)
    requires Consistent(db) && q.Refresh?
    ensures Alike(db, q, now, kept) <==> !InheritsType(db, q, now)
  {
    var d := q.doc;
    ErasedRow(db, d, now);
    EraseTwice(db, now, now);
    var (lazy, reply) := Serve(db, q, now, kept);
    if reply.Done? {
      EraseWithLock(db, d, reply.value.value, now);
    }
  }

  lemma SaveAlike(db: Db, q: Request, now: Instant, kept: bool)
    requires Consistent(db) && q.Save?
    ensures Alike(db, q, now, kept)
  {
    ErasedRow(db, q.doc, now);
    EraseTwice(db, now, now);
    EraseWithoutLock(db, q.doc, now);
    if q.doc in db.docs {
      EraseWithContent(db, q.doc, q.content, now);
    }
  }

  lemma TableRequestsAlike(db: Db, q: Request, now: Instant, kept: bool)
    requires Consistent(db) && (q.Create? || q.Remove? || q.Grant?)
    ensures Alike(db, q, now, kept)
  {
    EraseTwice(db, now, now);
    var lazy := Serve(db, q, now, kept).0;
    var eager := Eager(Erase(db, now), q, now).0;
    assert Erase(lazy, now).locks == Erase(eager, now).locks;
  }

  lemma SyncAlike(db: Db, q: Request, now: Instant, kept: bool)
    requires Consistent(db) && q.WorkerSync?
    ensures Alike(db, q, now, kept)
  {
    EraseTwice(db, now, now);
    if q.update.Some? && q.doc in db.docs {
      var content := q.update.value;
      if q.final {
        EraseWithoutLock(db, q.doc, now);
        EraseWithContent(WithoutLock(db, q.doc), q.doc, content, now);
        EraseWithContent(WithoutLock(Erase(db, now), q.doc), q.doc, content, now);
      } else {
        var lock := Lock(Collaborative, None, now + DEFAULT_TTL);
        EraseWithContent(db, q.doc, content, now);
        EraseWithLock(WithContent(db, q.doc, content), q.doc, lock, now);
        EraseWithLock(WithContent(Erase(db, now), q.doc, content), q.doc, lock, now);
      }
    }
  }

  /** One request: same reply and matching tables, exactly when it does not inherit a type. */
  lemma LazyIsEagerExactly(db: Db, q: Request, now: Instant, kept: bool)
    requires Consistent(db)
    ensures Alike(db, q, now, kept) <==> !InheritsType(db, q, now)
  {
    match q
    case Refresh(_, _, _) => RefreshAlikeExactly(db, q, now, kept);
    case Save(_, _, _) => SaveAlike(db, q, now, kept);
    case WorkerSync(_, _, _) => SyncAlike(db, q, now, kept);
    case Create(_, _, _) => TableRequestsAlike(db, q, now, kept);
    case Remove(_, _) => TableRequestsAlike(db, q, now, kept);
    case Grant(_, _, _) => TableRequestsAlike(db, q, now, kept);
    case _ => RowRequestsAlike(db, q, now, kept);
  }

  /** The eager machine's history for the same requests. */
  ghost predicate EagerRun(dbs: seq<Db>, qs: seq<Request>, nows: seq<Instant>) {
    && |dbs| == |qs| + 1 && |nows| == |qs|
    && (forall i | 0 <= i < |qs| :: dbs[i + 1] == Eager(Erase(dbs[i], nows[i]), qs[i], nows[i]).0)
  }

  /** Over a whole history, whatever becomes of the clean-up deletions: every reply is the one the
  eager machine gives, and the live rows are the same. */
  lemma {:induction false} LazyRefinesEager(lazy: seq<Db>, eager: seq<Db>, qs: seq<Request>, nows: seq<Instant>,
      kept: seq<bool>, n: nat)
    requires Run(lazy, qs, nows, kept) && EagerRun(eager, qs, nows) && lazy[0] == eager[0] == EMPTY && n < |qs|
    requires forall i | 0 <= i <= n :: !InheritsType(lazy[i], qs[i], nows[i])
    ensures Serve(lazy[n], qs[n], nows[n], kept[n]).1 == Eager(Erase(eager[n], nows[n]), qs[n], nows[n]).1
    ensures Erase(lazy[n + 1], nows[n]) == Erase(eager[n + 1], nows[n])
  {
    if n > 0 {
      LazyRefinesEager(lazy, eager, qs, nows, kept, n - 1);
      EraseTwice(lazy[n], nows[n - 1], nows[n]);
      EraseTwice(eager[n], nows[n - 1], nows[n]);
    }
    ReachableConsistent(lazy, qs, nows, kept, n);
    LazyIsEagerExactly(lazy[n], qs[n], nows[n], kept[n]);
  }

  /** The exception is real: an expired collaborative row makes a refresh hand out a collaborative
  lock, where a user who finds no lock is given an exclusive one. */
  lemma RefreshInheritsExpiredType()
    ensures var db := Db(map[1 := Document(7, "")], map[1 := Lock(Collaborative, None, 5)], map[(1, 7) := Owner]);
            && Consistent(db)
            && Serve(db, Refresh(1, 7, None), 10, false).1 == Done(Some(Lock(Collaborative, None, 310)))
            && Eager(Erase(db, 10), Refresh(1, 7, None), 10).1 == Done(Some(Lock(Exclusive, Some(7), 310)))
  {}

  // ---- Exclusive editing ----

  /** `user` holds `doc` exclusively, and will until `until` unless someone intervenes. */
  ghost predicate Holds(db: Db, doc: DocId, user: UserId, until: Instant) {
    && doc in db.docs && doc in db.locks
    && db.locks[doc].kind == Exclusive && db.locks[doc].holder == Some(user) && until <= db.locks[doc].expiresAt
  }

  /** The requests that end a hold: someone with a permission row releases, the worker syncs, the owner
  deletes, or the holder switches or renews for too short a time. */
  predicate Intervenes(db: Db, q: Request, doc: DocId, user: UserId, until: Instant, now: Instant) {
    q.doc == doc &&
    match q
    case Release(_, other) => (doc, other) in db.perms
    case WorkerSync(_, update, _) => update.Some?
    case Remove(_, other) => doc in db.docs && db.docs[doc].owner == other
    case Switch(_, other, _) => other == user
    case Acquire(_, other, ttl, kind) => other == user && (kind == Some(Collaborative) || now + Ttl(ttl) < until)
    case Refresh(_, other, ttl) => other == user && now + Ttl(ttl) < until
    case _ => false
  }

  function ContentOf(db: Db, doc: DocId): Option<string> {
    if doc in db.docs then Some(db.docs[doc].content) else None
  }

  /** One request before the hold runs out: it keeps the hold exactly when it does not intervene, and
  then it changes the content only if it is the holder's own save. */
  lemma HoldKeptExactly(db: Db, q: Request, doc: DocId, user: UserId, until: Instant, now: Instant, kept: bool)
    requires Consistent(db) && Holds(db, doc, user, until) && now <= until
    ensures var db' := Serve(db, q, now, kept).0;
            && (Holds(db', doc, user, until) <==> !Intervenes(db, q, doc, user, until, now))
            && (Holds(db', doc, user, until) ==>
                  ContentOf(db', doc) == if q.Save? && q.doc == doc && q.user == user && MayEdit(db, doc, user)
                                         then Some(q.content) else ContentOf(db, doc))
  {
    if q.doc == doc {
      HoldKeptSameDoc(db, q, doc, user, until, now, kept);
    }
  }

  lemma HoldKeptSameDoc(db: Db, q: Request, doc: DocId, user: UserId, until: Instant, now: Instant, kept: bool)
    requires Consistent(db) && Holds(db, doc, user, until) && now <= until && q.doc == doc
    ensures var db' := Serve(db, q, now, kept).0;
            && (Holds(db', doc, user, until) <==> !Intervenes(db, q, doc, user, until, now))
            && (Holds(db', doc, user, until) ==>
                  ContentOf(db', doc) == if q.Save? && q.user == user && MayEdit(db, doc, user)
                                         then Some(q.content) else ContentOf(db, doc))
  {
    assert !IsExpired(db.locks[doc], now);
  }

  /** The content of `doc` is as before, or what the holder has just saved. */
  predicate OnlyHolderWrites(db: Db, q: Request, db': Db, doc: DocId, user: UserId) {
    ContentOf(db', doc) == ContentOf(db, doc)
    || (q.Save? && q.doc == doc && q.user == user && ContentOf(db', doc) == Some(q.content))
  }

  lemma EditingStep(dbs: seq<Db>, qs: seq<Request>, nows: seq<Instant>, kept: seq<bool>,
                    doc: DocId, user: UserId, until: Instant, i: nat)
    requires Run(dbs, qs, nows, kept) && dbs[0] == EMPTY && i < |qs| && Holds(dbs[i], doc, user, until)
    requires nows[i] <= until && !Intervenes(dbs[i], qs[i], doc, user, until, nows[i])
    ensures Holds(dbs[i + 1], doc, user, until)
    ensures OnlyHolderWrites(dbs[i], qs[i], dbs[i + 1], doc, user)
  {
    ReachableConsistent(dbs, qs, nows, kept, i);
    HoldKeptExactly(dbs[i], qs[i], doc, user, until, nows[i], kept[i]);
  }

  /** From a grant of an exclusive lock on, for as long as nobody intervenes: the lock stays with its
  holder, and the content is what the holder last saved, or what it was. */
  lemma {:induction false} ExclusiveEditing(dbs: seq<Db>, qs: seq<Request>, nows: seq<Instant>, kept: seq<bool>,
                                            doc: DocId, user: UserId, until: Instant, from: nat, n: nat)
    requires Run(dbs, qs, nows, kept) && dbs[0] == EMPTY && from <= n <= |qs|
    requires Holds(dbs[from], doc, user, until)
    requires forall i | from <= i < n :: nows[i] <= until && !Intervenes(dbs[i], qs[i], doc, user, until, nows[i])
    ensures Holds(dbs[n], doc, user, until)
    ensures forall i | from <= i < n :: OnlyHolderWrites(dbs[i], qs[i], dbs[i + 1], doc, user)
  {
    if from < n {
      ExclusiveEditing(dbs, qs, nows, kept, doc, user, until, from, n - 1);
      EditingStep(dbs, qs, nows, kept, doc, user, until, n - 1);
    }
  }

  /** What starts such a stretch: a lock request answered with an exclusive row. */
  lemma GrantedExclusiveHolds(db: Db, q: Request, now: Instant, kept: bool)
    requires Consistent(db) && (q.Acquire? || q.Refresh?)
    requires var r := Serve(db, q, now, kept).1;
             r.Done? && r.value.Some? && r.value.value.kind == Exclusive
    ensures Holds(Serve(db, q, now, kept).0, q.doc, q.user, now + Ttl(q.ttl))
  {}

  /** While it lasts nobody else's save is accepted. */
  lemma OthersCannotSave(db: Db, doc: DocId, user: UserId, other: UserId, content: string, now: Instant, kept: bool)
    requires Holds(db, doc, user, now) && other != user
    ensures Serve(db, Save(doc, other, content), now, kept) ==
            (db, Refused(if MayEdit(db, doc, other) then 423 else 403))
  {}
}
