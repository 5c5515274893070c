/** The lock service, the save guard and the worker's sync as methods over mutable tables. Each is
proved to do exactly what LockModel says. */
module LockService {
  import opened Wrappers
  import opened LockModel

  class Backend {
    var docs: map<DocId, Document>
    var locks: map<DocId, Lock>
    var perms: map<(DocId, UserId), Level>

    ghost function Tables(): Db
      reads this
    {
      Db(docs, locks, perms)
    }

    constructor ()
      ensures Tables() == EMPTY
    {
      docs, locks, perms := map[], map[], map[];
    }

    // ---- Repositories ----

    method FindLock(doc: DocId) returns (found: Option<Lock>)
      ensures found == if doc in locks then Some(locks[doc]) else None
    {
      found := None;
      if doc in locks {
        found := Some(locks[doc]);
      }
    }

    method DeleteRow(doc: DocId)
      modifies this`locks
      ensures locks == old(locks) - {doc}
    {
      locks := locks - {doc};
    }

    method SaveRow(doc: DocId, lock: Lock)
      modifies this`locks
      ensures locks == old(locks)[doc := lock]
    {
      locks := locks[doc := lock];
    }

    method SetContent(doc: DocId, content: string)
      requires doc in docs
      modifies this`docs
      ensures docs == old(docs)[doc := old(docs)[doc].(content := content)]
    {
      docs := docs[doc := docs[doc].(content := content)];
    }

    /** `createLock`. */
    method CreateLock(doc: DocId, user: UserId, kind: LockType, ttl: int, now: Instant) returns (saved: Lock)
      modifies this`locks
      ensures saved == NewLock(user, kind, now, ttl) && locks == old(locks)[doc := saved]
    {
      var holder := None;
      if kind == Exclusive {
        holder := Some(user);
      }
      saved := Lock(kind, holder, now + ttl);
      SaveRow(doc, saved);
    }

    // ---- LockService ----

    method AcquireLock(doc: DocId, user: UserId, ttl: Option<int>, kind: Option<LockType>, now: Instant)
      returns (r: Reply)
      modifies this`locks
      ensures (Tables(), r) == LockModel.AcquireLock(old(Tables()), doc, user, ttl, kind, now)
    {
      if doc !in docs {
        return Refused(404);
      }
      var requested := Exclusive;
      if kind.Some? {
        requested := kind.value;
      }
      var existing := FindLock(doc);
      if existing.Some? {
        var current := existing.value;
        if IsExpired(current, now) {
          DeleteRow(doc);
          var renewed := CreateLock(doc, user, requested, Ttl(ttl), now);
          assert (old(locks) - {doc})[doc := renewed] == old(locks)[doc := renewed];
          return Done(Some(renewed));
        }
        r := HandleLockRequest(doc, user, Ttl(ttl), requested, current, now);
        return;
      }
      var created := CreateLock(doc, user, requested, Ttl(ttl), now);
      r := Done(Some(created));
    }

    method HandleLockRequest(doc: DocId, user: UserId, ttl: int, requested: LockType, row: Lock, now: Instant)
      returns (r: Reply)
      requires doc in locks && locks[doc] == row
      modifies this`locks
      ensures (Tables(), r) == LockModel.HandleLockRequest(old(Tables()), doc, user, ttl, requested, now)
    {
      var current := row;
      if current.kind == requested {
        if requested == Exclusive {
          if current.holder.None? || current.holder.value != user {
            return Refused(423);
          }
        }
        current := current.(expiresAt := now + ttl);
        SaveRow(doc, current);
        return Done(Some(current));
      }
      if current.kind == Exclusive && requested == Collaborative {
        if current.holder.None? || current.holder.value != user {
          return Refused(423);
        }
        current := current.(kind := Collaborative);
        current := current.(holder := None);
        current := current.(expiresAt := now + ttl);
        SaveRow(doc, current);
        return Done(Some(current));
      }
      return Refused(423);
    }

    method SwitchExclusiveToCollaborative(doc: DocId, user: UserId, ttl: Option<int>, now: Instant, kept: bool)
      returns (r: Reply)
      modifies this`locks
      ensures (Tables(), r) == LockModel.SwitchExclusiveToCollaborative(old(Tables()), doc, user, ttl, now, kept)
    {
      if doc !in docs {
        return Refused(404);
      }
      var existing := FindLock(doc);
      if existing.None? {
        return Refused(423);
      }
      var current := existing.value;
      if IsExpired(current, now) {
        if kept {
          DeleteRow(doc);
        }
        return Refused(423);
      }
      if current.kind != Exclusive {
        return Refused(409);
      }
      if current.holder.None? || current.holder.value != user {
        return Refused(423);
      }
      current := Lock(Collaborative, None, now + Ttl(ttl));
      SaveRow(doc, current);
      r := Done(Some(current));
    }

    method ReleaseLock(doc: DocId, user: UserId, now: Instant) returns (r: Reply)
      modifies this`locks
      ensures (Tables(), r) == LockModel.ReleaseLock(old(Tables()), doc, user, now)
    {
      if doc !in docs {
        return Refused(404);
      }
      var existing := FindLock(doc);
      if existing.None? {
        return Done(None);
      }
      if IsExpired(existing.value, now) {
        DeleteRow(doc);
        return Done(None);
      }
      if (doc, user) !in perms {
        return Refused(403);
      }
      DeleteRow(doc);
      r := Done(None);
    }

    method ReleaseCollaborativeLock(doc: DocId, now: Instant)
      modifies this`locks
      ensures locks == old(locks) - {doc}
    {
      var existing := FindLock(doc);
      if existing.None? {
        assert locks == locks - {doc};
        return;
      }
      if IsExpired(existing.value, now) {
        DeleteRow(doc);
        return;
      }
      DeleteRow(doc);
    }

    method RefreshLock(doc: DocId, user: UserId, ttl: Option<int>, now: Instant) returns (r: Reply)
      modifies this`locks
      ensures (Tables(), r) == LockModel.RefreshLock(old(Tables()), doc, user, ttl, now)
    {
      if doc !in docs {
        return Refused(404);
      }
      var existing := FindLock(doc);
      if existing.None? {
        var created := CreateLock(doc, user, Exclusive, Ttl(ttl), now);
        return Done(Some(created));
      }
      var current := existing.value;
      if IsExpired(current, now) {
        DeleteRow(doc);
        var renewed := CreateLock(doc, user, current.kind, Ttl(ttl), now);
        assert (old(locks) - {doc})[doc := renewed] == old(locks)[doc := renewed];
        return Done(Some(renewed));
      }
      if current.kind == Exclusive {
        if current.holder.None? || current.holder.value != user {
          return Refused(423);
        }
      } else {
        if (doc, user) !in perms {
          return Refused(403);
        }
      }
      current := current.(expiresAt := now + Ttl(ttl));
      SaveRow(doc, current);
      r := Done(Some(current));
    }

    method GetLock(doc: DocId, now: Instant, kept: bool) returns (r: Reply)
      modifies this`locks
      ensures (Tables(), r) == LockModel.GetLock(old(Tables()), doc, now, kept)
    {
      if doc !in docs {
        return Refused(404);
      }
      var existing := FindLock(doc);
      if existing.None? {
        return Done(None);
      }
      if IsExpired(existing.value, now) {
        if kept {
          DeleteRow(doc);
        }
        return Done(None);
      }
      r := Done(existing);
    }

    method AcquireCollaborativeLock(doc: DocId, now: Instant) returns (r: Reply)
      modifies this`locks
      ensures (Tables(), r) == LockModel.AcquireCollaborativeLock(old(Tables()), doc, now)
    {
      if doc !in docs {
        return Refused(404);
      }
      var fresh' := Lock(Collaborative, None, now + DEFAULT_TTL);
      var existing := FindLock(doc);
      if existing.Some? {
        var current := existing.value;
        if IsExpired(current, now) {
          DeleteRow(doc);
          SaveRow(doc, fresh');
          assert (old(locks) - {doc})[doc := fresh'] == old(locks)[doc := fresh'];
          return Done(Some(fresh'));
        }
        if current.kind == Exclusive {
          return Refused(409);
        }
        current := current.(expiresAt := now + DEFAULT_TTL);
        SaveRow(doc, current);
        return Done(Some(current));
      }
      SaveRow(doc, fresh');
      r := Done(Some(fresh'));
    }

    // ---- DocumentService ----

    method CanUserEdit(doc: DocId, user: UserId) returns (ok: bool)
      requires doc in docs
      ensures ok == MayEdit(Tables(), doc, user)
    {
      if docs[doc].owner == user {
        return true;
      }
      ok := (doc, user) in perms && perms[(doc, user)] == Editor;
    }

    method SaveDocument(doc: DocId, user: UserId, content: string, now: Instant, kept: bool) returns (r: Reply)
      modifies this`locks, this`docs
      ensures (Tables(), r) == LockModel.SaveDocument(old(Tables()), doc, user, content, now, kept)
    {
      if doc !in docs {
        return Refused(404);
      }
      var allowed := CanUserEdit(doc, user);
      if !allowed {
        return Refused(403);
      }
      var maybeLock := FindLock(doc);
      if maybeLock.None? {
        return Refused(423);
      }
      var lock := maybeLock.value;
      if IsExpired(lock, now) {
        if kept {
          DeleteRow(doc);
        }
        return Refused(423);
      }
      if lock.kind == Exclusive {
        if lock.holder.None? || lock.holder.value != user {
          return Refused(423);
        }
      }
      SetContent(doc, content);
      r := Done(None);
    }

    method Create(doc: DocId, owner: UserId, content: string) returns (r: Reply)
      modifies this`docs, this`perms
      ensures (Tables(), r) == CreateDocument(old(Tables()), doc, owner, content)
    {
      if doc in docs {
        return Refused(500);
      }
      docs := docs[doc := Document(owner, content)];
      perms := perms[(doc, owner) := Owner];
      r := Done(None);
    }

    method DeleteDocument(doc: DocId, user: UserId) returns (r: Reply)
      modifies this
      ensures (Tables(), r) == LockModel.DeleteDocument(old(Tables()), doc, user)
    {
      if doc !in docs {
        return Refused(404);
      }
      if docs[doc].owner != user {
        return Refused(403);
      }
      DeleteRow(doc);
      perms := map k | k in perms && k.0 != doc :: perms[k];
      docs := docs - {doc};
      r := Done(None);
    }

    /** `permissionRepository.save` of a new row, under the unique constraint on document and user. */
    method SavePermission(doc: DocId, user: UserId, level: Level) returns (r: Reply)
      modifies this`perms
      ensures (Tables(), r) == GrantAccess(old(Tables()), doc, user, level)
    {
      if doc !in docs || (doc, user) in perms {
        return Refused(500);
      }
      perms := perms[(doc, user) := level];
      r := Done(None);
    }

    // ---- WorkerDocumentSyncService ----

    /** `updateContentAndRefreshCollaborativeLock`: one statement, so content and lock move together. */
    method UpdateContentAndRefreshLock(doc: DocId, content: string, expiresAt: Instant) returns (ok: bool)
      modifies this`docs, this`locks
      ensures ok == (doc in old(docs))
      ensures ok ==> Tables() == WithLock(WithContent(old(Tables()), doc, content), doc,
                Lock(Collaborative, None, expiresAt))
      ensures !ok ==> Tables() == old(Tables())
    {
      ok := doc in docs;
      if ok {
        SetContent(doc, content);
        SaveRow(doc, Lock(Collaborative, None, expiresAt));
      }
    }

    method SyncDocument(doc: DocId, update: Option<string>, final: bool, now: Instant) returns (r: Reply)
      modifies this`docs, this`locks
      requires doc in locks ==> doc in docs
      ensures (Tables(), r) == LockModel.SyncDocument(old(Tables()), doc, update, final, now)
    {
      if update.None? {
        return Refused(400);
      }
      if !final {
        var ok := UpdateContentAndRefreshLock(doc, update.value, now + DEFAULT_TTL);
        return if ok then Done(None) else Refused(500);
      }
      ReleaseCollaborativeLock(doc, now);
      if doc !in docs {
        assert locks == old(locks);
        return Refused(404);
      }
      SetContent(doc, update.value);
      r := Done(None);
    }
  }
}
