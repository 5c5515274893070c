/** What each sharing call answers and writes, said of the rows alone, and what invites and approvals come
to over whole runs. */
module SharingLaws {
  import opened Wrappers
  import opened LockModel
  import opened Sharing
  import LockLaws
  import SharingRuns

  /** One permission row has been written; invites, documents and locks are as before. */
  ghost predicate OnlyGranted(st: Store, doc: DocId, user: UserId, level: Level, st': Store) {
    && st'.invites == st.invites && st'.db.docs == st.db.docs && st'.db.locks == st.db.locks
    && st'.db.perms == st.db.perms[(doc, user) := level]
  }

  /** `id` is the one pending request of `user` for `doc`. */
  ghost predicate TheRequest(st: Store, doc: DocId, user: UserId, id: RequestId) {
    && id in st.requests && st.requests[id].doc == doc && st.requests[id].requester == user
    && forall other | other in st.requests && st.requests[other].doc == doc && st.requests[other].requester == user ::
         other == id
  }

  /** Only the owner makes invites; an invite lasts three hours unless said otherwise. */
  lemma CreateInviteExactly(st: Store, doc: DocId, user: UserId, auto: bool, expiresAt: Option<Instant>,
                            token: InviteToken, now: Instant)
    ensures var (st', r) := Sharing.Serve(st, CreateInvite(doc, user, auto, expiresAt, token), now);
            if doc !in st.db.docs then r == Refused(404) && st' == st
            else if user != st.db.docs[doc].owner then r == Refused(403) && st' == st
            else if token in st.invites then r == Refused(500) && st' == st
            else
              var until := if expiresAt.None? then now + 10800 else expiresAt.value;
              && r == Done(Invited(token)) && st'.db == st.db && st'.requests == st.requests
              && st'.invites == st.invites[token := Invite(doc, user, auto, Some(until))]
  {}

  /** An invite is refused if unknown or over. An auto-approving one gives a VIEWER row to whoever has
  none; any other leaves one pending request, the one that is answered. */
  lemma UseExactly(st: Store, token: InviteToken, user: UserId, id: RequestId, now: Instant)
    requires Sound(st)
    ensures var (st', r) := Sharing.Serve(st, UseInvite(token, user, id), now);
            if token !in st.invites then r == Refused(404) && st' == st
            else if st.invites[token].expiresAt.value < now then r == Refused(400) && st' == st
            else if st.invites[token].autoApprove then
              var doc := st.invites[token].doc;
              && r == Done(Access) && st'.requests == st.requests
              && (if (doc, user) in st.db.perms then st' == st else OnlyGranted(st, doc, user, Viewer, st'))
            else AskedFor(st, st.invites[token].doc, user, id, st', r)
  {
    if token in st.invites {
      assert InviteSound(st, st.invites[token]);
      if !(st.invites[token].expiresAt.value < now) && !st.invites[token].autoApprove {
        AskExactly(st, token, user, id, now);
      }
    }
  }

  /** The user has one request pending; it was there, or it has been added under `id`, which must be new. */
  ghost predicate AskedFor(st: Store, doc: DocId, user: UserId, id: RequestId, st': Store, r: Sharing.Result) {
    && st'.db == st.db && st'.invites == st.invites
    && (r.Done? ==> r.value.Pending? && TheRequest(st', doc, user, r.value.id))
    && (if exists old' :: TheRequest(st, doc, user, old') then r.Done? && st' == st
        else if id in st.requests then r == Refused(500) && st' == st
        else r == Done(Pending(id)) && st'.requests == st.requests[id := AccessRequest(doc, user)])
  }

  lemma AskExactly(st: Store, token: InviteToken, user: UserId, id: RequestId, now: Instant)
    requires Sound(st) && token in st.invites && !st.invites[token].autoApprove
    requires st.invites[token].expiresAt.Some? && !(st.invites[token].expiresAt.value < now)
    ensures var (st', r) := Sharing.Serve(st, UseInvite(token, user, id), now);
            AskedFor(st, st.invites[token].doc, user, id, st', r)
  {
    var access := AccessRequest(st.invites[token].doc, user);
    var pending := PendingFor(st, access);
    if pending.Some? {
      assert IsPending(st, pending.value, access) && TheRequest(st, access.doc, user, pending.value);
    } else {
      forall other | other in st.requests ensures st.requests[other] != access {
        assert !IsPending(st, other, access);
      }
    }
  }

  /** Only the owner decides. A rejection takes the request away and writes nothing; an approval writes the
  row asked for, EDITOR or VIEWER, unless the requester has one already. */
  lemma ProcessExactly(st: Store, id: RequestId, user: UserId, approve: bool, editor: bool, now: Instant)
    requires Sound(st)
    ensures var (st', r) := Sharing.Serve(st, ProcessRequest(id, user, approve, editor), now);
            if id !in st.requests then r == Refused(404) && st' == st
            else
              var (doc, requester) := (st.requests[id].doc, st.requests[id].requester);
              if user != st.db.docs[doc].owner then r == Refused(403) && st' == st
              else if !approve then r == Done(Processed) && st' == st.(requests := st.requests - {id})
              else if (doc, requester) in st.db.perms then r == Refused(500) && st' == st
              else
                && r == Done(Processed) && st'.requests == st.requests - {id}
                && OnlyGranted(st, doc, requester, if editor then Editor else Viewer, st')
  {}

  /** An approval that names no level writes a VIEWER row. */
  lemma ViewerUnlessAsked(st: Store, id: RequestId, level: Option<Level>)
    requires Sound(st) && id in st.requests
    ensures var (doc, requester) := (st.requests[id].doc, st.requests[id].requester);
            (doc, requester) !in st.db.perms ==>
              OnlyGranted(st, doc, requester, match level case Some(asked) => asked case None => Viewer,
                          Process(st, id, st.db.docs[doc].owner, true, level).0)
  {}

  /** Every other request does to the tables what it does without sharing, and leaves invites and requests
  alone, but that a deleted document's go with it. */
  lemma ApiExactly(st: Store, q: LockModel.Request, now: Instant, kept: bool)
    ensures var (st', r) := Sharing.Serve(st, Call.Api(q, kept), now);
            var (db', reply) := LockModel.Serve(st.db, q, now, kept);
            && st'.db == db' && (reply.Done? ==> r == Done(Row(reply.value)))
            && (reply.Refused? ==> r == Refused(reply.status))
            && (if q.Remove? && reply.Done? then
                  && (forall t :: t in st'.invites <==> t in st.invites && st.invites[t].doc != q.doc)
                  && (forall t | t in st'.invites :: st'.invites[t] == st.invites[t])
                  && (forall id :: id in st'.requests <==> id in st.requests && st.requests[id].doc != q.doc)
                  && (forall id | id in st'.requests :: st'.requests[id] == st.requests[id])
                else st'.invites == st.invites && st'.requests == st.requests)
  {}

  // ---- Over whole runs ----

  /** Whoever has used an auto-approving invite in time has a permission row from then on, for as long as
  the document is there; a VIEWER row, if there was none. */
  lemma AutoApprovalLasts(h: SharingRuns.History, i: nat, n: nat, doc: DocId, user: UserId)
    requires SharingRuns.Run(h) && i < n <= |h.calls|
    requires h.calls[i].UseInvite? && h.calls[i].user == user && h.calls[i].token in h.stores[i].invites
    requires var invite := h.stores[i].invites[h.calls[i].token];
             invite.doc == doc && invite.autoApprove && invite.expiresAt.Some? && h.nows[i] <= invite.expiresAt.value
    requires forall j | i <= j <= n :: doc in h.stores[j].db.docs
    ensures (doc, user) in h.stores[n].db.perms
    ensures h.stores[n].db.perms[(doc, user)]
         == if (doc, user) in h.stores[i].db.perms then h.stores[i].db.perms[(doc, user)] else Viewer
  {
    SharingRuns.ReachableSound(h, i);
    UseExactly(h.stores[i], h.calls[i].token, user, h.calls[i].id, h.nows[i]);
    SharingRuns.LevelIsForLife(h, i + 1, n, doc, user);
  }

  /** Whoever the owner has approved as EDITOR can save from then on, for as long as the document is there,
  whenever a lock is on that is shared or the saver's own. */
  lemma ApprovedEditorsCanSave(h: SharingRuns.History, k: nat, n: nat, doc: DocId, user: UserId, content: string,
                               kept: bool)
    requires SharingRuns.Run(h) && k < n < |h.calls|
    requires h.calls[k].ProcessRequest? && h.calls[k].approve && h.calls[k].editor && SharingRuns.Done(h, k)
    requires h.calls[k].id in h.stores[k].requests
    requires h.stores[k].requests[h.calls[k].id] == AccessRequest(doc, user)
    requires forall j | k <= j <= n :: doc in h.stores[j].db.docs
    requires h.calls[n] == Api(Save(doc, user, content), kept)
    requires var locks := h.stores[n].db.locks;
             && doc in locks && h.nows[n] <= locks[doc].expiresAt
             && (locks[doc].kind == Collaborative || locks[doc].holder == Some(user))
    ensures SharingRuns.Done(h, n) && h.stores[n + 1].db.docs[doc].content == content
  {
    SharingRuns.ReachableSound(h, k);
    SharingRuns.ReachableSound(h, n);
    ProcessExactly(h.stores[k], h.calls[k].id, h.calls[k].user, true, true, h.nows[k]);
    SharingRuns.LevelIsForLife(h, k + 1, n, doc, user);
    LockLaws.SaveExactly(h.stores[n].db, doc, user, content, h.nows[n], kept);
  }
}
