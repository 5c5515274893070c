/** What each request to the document, permission and lock tables does, said of the rows alone, and what
follows over whole histories: a document's content is what was last written, and no lock outlasts its
time. A lock row is over once its time lies before the present (LockService.java:224-226). */
module LockLaws {
  import opened Wrappers
  import opened LockModel

  /** The seconds a lock is asked for, five minutes unless said otherwise. */
  function Seconds(ttl: Option<int>): int {
    match ttl
    case Some(seconds) => seconds
    case None => 300
  }

  /** Nobody has a lock on the document any more. */
  predicate Free(db: Db, doc: DocId, now: Instant) {
    doc in db.locks ==> db.locks[doc].expiresAt < now
  }

  predicate HeldBy(db: Db, doc: DocId, user: UserId) {
    doc in db.locks && db.locks[doc].holder == Some(user)
  }

  predicate Shared(db: Db, doc: DocId) {
    doc in db.locks && db.locks[doc].kind == Collaborative
  }

  /** The two kinds of row there are. */
  function RowFor(shared: bool, user: UserId, until: Instant): Lock {
    if shared then Lock(Collaborative, None, until) else Lock(Exclusive, Some(user), until)
  }

  /** The document's lock row, and nothing else, is now `row`. */
  ghost predicate OnlyLock(db: Db, doc: DocId, row: Option<Lock>, db': Db) {
    && db'.docs == db.docs && db'.perms == db.perms
    && db'.locks == match row case Some(lock) => db.locks[doc := lock] case None => db.locks - {doc}
  }

  /** Nothing has changed, unless an expired row was cleaned up. */
  ghost predicate CleanedUpAtMost(db: Db, doc: DocId, now: Instant, kept: bool, db': Db) {
    if kept && Free(db, doc, now) then OnlyLock(db, doc, None, db') else db' == db
  }

  // ---- Requests one by one ----

  lemma LookExactly(db: Db, doc: DocId, now: Instant, kept: bool)
    requires doc in db.docs
    ensures var (db', r) := Serve(db, Look(doc), now, kept);
            && (r == Done(None) <==> doc !in db.locks || db.locks[doc].expiresAt < now)
            && (r != Done(None) ==> r == Done(Some(db.locks[doc])))
            && CleanedUpAtMost(db, doc, now, kept, db')
  {
    assert doc !in db.locks ==> db.locks - {doc} == db.locks;
  }

  /** A lock is granted if nobody has one, to whoever has it, and to whoever joins in a shared one. */
  lemma AcquireExactly(db: Db, doc: DocId, user: UserId, ttl: Option<int>, kind: Option<LockType>,
                       now: Instant, kept: bool)
    requires Consistent(db) && doc in db.docs
    ensures var (db', r) := Serve(db, Acquire(doc, user, ttl, kind), now, kept);
            var shared := kind == Some(Collaborative);
            var row := RowFor(shared, user, now + Seconds(ttl));
            if Free(db, doc, now) || HeldBy(db, doc, user) || (shared && Shared(db, doc)) then
              r == Done(Some(row)) && OnlyLock(db, doc, Some(row), db')
            else r == Refused(423) && db' == db
  {}

  /** The holder, or anyone with a permission row when the lock is shared, renews it; without a live lock
  anyone is given one, of the type of the row that has run out. */
  lemma RefreshExactly(db: Db, doc: DocId, user: UserId, ttl: Option<int>, now: Instant, kept: bool)
    requires Consistent(db) && doc in db.docs
    ensures var (db', r) := Serve(db, Refresh(doc, user, ttl), now, kept);
            var row := RowFor(Shared(db, doc), user, now + Seconds(ttl));
            if Free(db, doc, now) || HeldBy(db, doc, user) || (Shared(db, doc) && (doc, user) in db.perms) then
              r == Done(Some(row)) && OnlyLock(db, doc, Some(row), db')
            else r == Refused(if Shared(db, doc) then 403 else 423) && db' == db
  {}

  lemma SwitchExactly(db: Db, doc: DocId, user: UserId, ttl: Option<int>, now: Instant, kept: bool)
    requires Consistent(db) && doc in db.docs
    ensures var (db', r) := Serve(db, Switch(doc, user, ttl), now, kept);
            var row := RowFor(true, user, now + Seconds(ttl));
            if !Free(db, doc, now) && HeldBy(db, doc, user) then
              r == Done(Some(row)) && OnlyLock(db, doc, Some(row), db')
            else
              && r == Refused(if !Free(db, doc, now) && Shared(db, doc) then 409 else 423)
              && CleanedUpAtMost(db, doc, now, kept, db')
  {
    assert doc !in db.locks ==> db.locks - {doc} == db.locks;
  }

  lemma ReleaseExactly(db: Db, doc: DocId, user: UserId, now: Instant, kept: bool)
    requires doc in db.docs
    ensures var (db', r) := Serve(db, Release(doc, user), now, kept);
            if !Free(db, doc, now) && (doc, user) !in db.perms then r == Refused(403) && db' == db
            else r == Done(None) && OnlyLock(db, doc, None, db')
  {
    assert doc !in db.locks ==> db.locks - {doc} == db.locks;
  }

  lemma WorkerAcquireExactly(db: Db, doc: DocId, now: Instant, kept: bool)
    requires Consistent(db) && doc in db.docs
    ensures var (db', r) := Serve(db, WorkerAcquire(doc), now, kept);
            var row := Lock(Collaborative, None, now + 300);
            if Free(db, doc, now) || Shared(db, doc) then r == Done(Some(row)) && OnlyLock(db, doc, Some(row), db')
            else r == Refused(409) && db' == db
  {}

  /** A save is accepted from someone with edit rights while a lock is on that is shared or the saver's. */
  lemma SaveExactly(db: Db, doc: DocId, user: UserId, content: string, now: Instant, kept: bool)
    requires Consistent(db) && doc in db.docs
    ensures var (db', r) := Serve(db, Save(doc, user, content), now, kept);
            var editor := user == db.docs[doc].owner || ((doc, user) in db.perms && db.perms[(doc, user)] == Editor);
            if editor && !Free(db, doc, now) && (HeldBy(db, doc, user) || Shared(db, doc)) then
              && r == Done(None) && db'.locks == db.locks && db'.perms == db.perms
              && db'.docs == db.docs[doc := Document(db.docs[doc].owner, content)]
            else if editor then r == Refused(423) && CleanedUpAtMost(db, doc, now, kept, db')
            else r == Refused(403) && db' == db
  {
    assert doc !in db.locks ==> db.locks - {doc} == db.locks;
  }

  /** The worker's sync stores the content whoever has the lock, and takes the lock for the session or, at
  its end, takes it away. */
  lemma SyncExactly(db: Db, doc: DocId, content: string, final: bool, now: Instant, kept: bool)
    requires doc in db.docs
    ensures var (db', r) := Serve(db, WorkerSync(doc, Some(content), final), now, kept);
            && r == Done(None) && db'.perms == db.perms
            && db'.docs == db.docs[doc := Document(db.docs[doc].owner, content)]
            && db'.locks == if final then db.locks - {doc} else db.locks[doc := Lock(Collaborative, None, now + 300)]
    ensures Serve(db, WorkerSync(doc, None, final), now, kept) == (db, Refused(400))
  {}

  lemma CreateExactly(db: Db, doc: DocId, user: UserId, content: string, now: Instant, kept: bool)
    ensures var (db', r) := Serve(db, Create(doc, user, content), now, kept);
            if doc in db.docs then r == Refused(500) && db' == db
            else
              && r == Done(None) && db'.locks == db.locks
              && db'.docs == db.docs[doc := Document(user, content)] && db'.perms == db.perms[(doc, user) := Owner]
  {}

  /** Only the owner deletes, and every row of the document goes with it. */
  lemma RemoveExactly(db: Db, doc: DocId, user: UserId, now: Instant, kept: bool)
    requires doc in db.docs
    ensures var (db', r) := Serve(db, Remove(doc, user), now, kept);
            if user == db.docs[doc].owner then
              && r == Done(None) && db'.docs == db.docs - {doc} && db'.locks == db.locks - {doc}
              && (forall k :: k in db'.perms <==> k in db.perms && k.0 != doc)
            else r == Refused(403) && db' == db
  {}

  lemma GrantExactly(db: Db, doc: DocId, user: UserId, level: Level, now: Instant, kept: bool)
    ensures var (db', r) := Serve(db, Grant(doc, user, level), now, kept);
            if doc in db.docs && (doc, user) !in db.perms then
              && r == Done(None) && db'.docs == db.docs && db'.locks == db.locks
              && db'.perms == db.perms[(doc, user) := level]
            else r == Refused(500) && db' == db
  {}

  /** No request does anything for a document that is not there, but create it. */
  lemma UnknownDocument(db: Db, q: Request, now: Instant, kept: bool)
    requires q.doc !in db.docs && !q.Create?
    ensures var (db', r) := Serve(db, q, now, kept);
            && db' == db
            && r == Refused(if q.WorkerSync? && q.update.None? then 400
                            else if q.Grant? || (q.WorkerSync? && !q.final) then 500 else 404)
  {}

  /** No request touches another document's rows. */
  lemma OthersUntouched(db: Db, q: Request, now: Instant, kept: bool, doc: DocId, user: UserId)
    requires doc != q.doc
    ensures var db' := Serve(db, q, now, kept).0;
            && (doc in db'.docs <==> doc in db.docs) && (doc in db.docs ==> db'.docs[doc] == db.docs[doc])
            && (doc in db'.locks <==> doc in db.locks) && (doc in db.locks ==> db'.locks[doc] == db.locks[doc])
            && ((doc, user) in db'.perms <==> (doc, user) in db.perms)
            && ((doc, user) in db.perms ==> db'.perms[(doc, user)] == db.perms[(doc, user)])
  {}

  // ---- Over whole histories ----

  function Content(db: Db, doc: DocId): Option<string> {
    if doc in db.docs then Some(db.docs[doc].content) else None
  }

  /** What a request that is not refused brings for its document: content of its own, or the end of it. */
  datatype Fate = Stays | Becomes(content: string) | Goes

  function Brings(q: Request, r: Reply): Fate {
    if r.Refused? then Stays
    else match q
      case Save(_, _, content) => Becomes(content)
      case WorkerSync(_, Some(content), _) => Becomes(content)
      case Create(_, _, content) => Becomes(content)
      case Remove(_, _) => Goes
      case _ => Stays
  }

  lemma ContentStep(db: Db, q: Request, now: Instant, kept: bool, doc: DocId)
    ensures var (db', r) := Serve(db, q, now, kept);
            Content(db', doc) ==
            if q.doc != doc then Content(db, doc)
            else match Brings(q, r)
              case Stays => Content(db, doc)
              case Becomes(content) => Some(content)
              case Goes => None
  {
    if q.doc != doc {
      OthersUntouched(db, q, now, kept, doc, 0);
    }
  }

  /** What the request at place `i` of a history brings for `doc`. */
  function FateAt(dbs: seq<Db>, qs: seq<Request>, nows: seq<Instant>, kept: seq<bool>, i: nat, doc: DocId): Fate
    requires i < |qs| && i < |dbs| && i < |nows| && i < |kept|
  {
    if qs[i].doc != doc then Stays else Brings(qs[i], Serve(dbs[i], qs[i], nows[i], kept[i]).1)
  }

  /** A document's content is what the last save, sync or creation that was not refused carried. */
  lemma {:induction false} ContentIsLastWritten(dbs: seq<Db>, qs: seq<Request>, nows: seq<Instant>, kept: seq<bool>,
                                                n: nat, doc: DocId) returns (w: nat)
    requires Run(dbs, qs, nows, kept) && dbs[0] == EMPTY && n <= |qs| && doc in dbs[n].docs
    ensures w < n && FateAt(dbs, qs, nows, kept, w, doc) == Becomes(dbs[n].docs[doc].content)
    ensures forall i | w < i < n :: FateAt(dbs, qs, nows, kept, i, doc) == Stays
  {
    ContentStep(dbs[n - 1], qs[n - 1], nows[n - 1], kept[n - 1], doc);
    if FateAt(dbs, qs, nows, kept, n - 1, doc) == Stays {
      w := ContentIsLastWritten(dbs, qs, nows, kept, n - 1, doc);
    } else {
      w := n - 1;
    }
  }

  /** The request hands out a lock on `doc`, or takes one for the worker. */
  predicate Renews(db: Db, q: Request, now: Instant, kept: bool, doc: DocId) {
    var r := Serve(db, q, now, kept).1;
    q.doc == doc && r.Done? && ((r.value.Some? && !q.Look?) || (q.WorkerSync? && !q.final))
  }

  lemma RowStands(db: Db, q: Request, now: Instant, kept: bool, doc: DocId)
    requires !Renews(db, q, now, kept, doc) && doc in Serve(db, q, now, kept).0.locks
    ensures doc in db.locks && Serve(db, q, now, kept).0.locks[doc] == db.locks[doc]
  {
    if q.doc != doc {
      OthersUntouched(db, q, now, kept, doc, 0);
    }
  }

  lemma {:induction false} RowsRunOut(dbs: seq<Db>, qs: seq<Request>, nows: seq<Instant>, kept: seq<bool>,
                                      from: nat, n: nat, doc: DocId, until: Instant)
    requires Run(dbs, qs, nows, kept) && from <= n <= |qs|
    requires doc in dbs[from].locks ==> dbs[from].locks[doc].expiresAt <= until
    requires forall i | from <= i < n :: !Renews(dbs[i], qs[i], nows[i], kept[i], doc)
    ensures doc in dbs[n].locks ==> dbs[n].locks[doc].expiresAt <= until
  {
    if from < n {
      hide Serve, Renews;
      RowsRunOut(dbs, qs, nows, kept, from, n - 1, doc, until);
      if doc in dbs[n].locks {
        RowStands(dbs[n - 1], qs[n - 1], nows[n - 1], kept[n - 1], doc);
      }
    }
  }

  /** Nobody is locked out for good: once a lock's time is over and nobody has renewed it, anyone who asks
  is given the lock, and nobody can save without. */
  lemma LocksLapse(dbs: seq<Db>, qs: seq<Request>, nows: seq<Instant>, kept: seq<bool>, from: nat, n: nat,
                   doc: DocId, until: Instant)
    requires Run(dbs, qs, nows, kept) && dbs[0] == EMPTY && from <= n < |qs| && doc in dbs[n].docs && until < nows[n]
    requires doc in dbs[from].locks ==> dbs[from].locks[doc].expiresAt <= until
    requires forall i | from <= i < n :: !Renews(dbs[i], qs[i], nows[i], kept[i], doc)
    requires qs[n].doc == doc
    ensures var r := Serve(dbs[n], qs[n], nows[n], kept[n]).1;
            && (qs[n].Acquire? ==>
                  r == Done(Some(RowFor(qs[n].kind == Some(Collaborative), qs[n].user, nows[n] + Seconds(qs[n].ttl)))))
            && (qs[n].Save? ==> r.Refused?)
  {
    ReachableConsistent(dbs, qs, nows, kept, n);
    RowsRunOut(dbs, qs, nows, kept, from, n, doc, until);
    match qs[n]
    case Acquire(_, user, ttl, kind) => AcquireExactly(dbs[n], doc, user, ttl, kind, nows[n], kept[n]);
    case Save(_, user, content) => SaveExactly(dbs[n], doc, user, content, nows[n], kept[n]);
    case _ =>
  }
}
