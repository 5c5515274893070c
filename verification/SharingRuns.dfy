/** Where permission rows come from, over whole runs of the backend: any mix of sharing calls with
document, lock, save and worker requests. */
module SharingRuns {
  import opened Wrappers
  import opened LockModel
  import opened Sharing

  datatype History = History(stores: seq<Store>, calls: seq<Call>, nows: seq<Instant>)

  ghost predicate Run(h: History) {
    && |h.stores| == |h.calls| + 1 && |h.nows| == |h.calls| && h.stores[0] == NOTHING
    && (forall i | 0 <= i < |h.calls| ::
          Allowed(h.calls[i]) && h.stores[i + 1] == Sharing.Serve(h.stores[i], h.calls[i], h.nows[i]).0)
  }

  ghost predicate Done(h: History, i: nat)
    requires Run(h) && i < |h.calls|
  {
    Sharing.Serve(h.stores[i], h.calls[i], h.nows[i]).1.Done?
  }

  // ---- What happened, and when ----

  /** Call `i` was the owner's own, and created this invite. */
  ghost predicate Made(h: History, i: nat, token: InviteToken, invite: Invite)
    requires Run(h)
  {
    i < |h.calls| && Done(h, i) && h.calls[i].CreateInvite?
    && h.calls[i].token == token && h.calls[i].doc == invite.doc && h.calls[i].user == invite.creator
    && h.calls[i].autoApprove == invite.autoApprove
    && invite.expiresAt == Some(ExpiryOf(h.calls[i].expiresAt, h.nows[i]))
    && invite.doc in h.stores[i].db.docs && h.stores[i].db.docs[invite.doc].owner == invite.creator
  }

  /** Call `j` was the user's own: the invite of call `i`, used before it expired. */
  ghost predicate Used(h: History, i: nat, j: nat, user: UserId, invite: Invite)
    requires Run(h)
  {
    && i < j < |h.calls| && Done(h, j) && h.calls[j].UseInvite? && h.calls[j].user == user
    && Made(h, i, h.calls[j].token, invite) && h.nows[j] <= invite.expiresAt.value
  }

  /** The request row `id` was written by call `j`, which used an invite of the owner's. */
  ghost predicate Asked(h: History, j: nat, id: RequestId, access: AccessRequest, owner: UserId)
    requires Run(h)
  {
    exists i: nat, invite ::
      && Used(h, i, j, access.requester, invite) && h.calls[j].id == id
      && invite.doc == access.doc && invite.creator == owner && !invite.autoApprove
  }

  /** Call `k` was the owner's own, and approved the request that call `j` made. */
  ghost predicate Approved(h: History, j: nat, k: nat, access: AccessRequest, owner: UserId, level: Level)
    requires Run(h)
  {
    && j < k < |h.calls| && Done(h, k) && h.calls[k].ProcessRequest? && h.calls[k].approve && h.calls[k].user == owner
    && LevelAsked(h.calls[k].editor) == level && Asked(h, j, h.calls[k].id, access, owner)
  }

  /** Call `j` used an auto-approving invite of the owner's. */
  ghost predicate AutoGranted(h: History, j: nat, access: AccessRequest, owner: UserId)
    requires Run(h)
  {
    exists i: nat, invite ::
      && Used(h, i, j, access.requester, invite)
      && invite.doc == access.doc && invite.creator == owner && invite.autoApprove
  }

  // ---- Tracing each kind of row to the calls before `n` ----

  ghost predicate InviteTraced(h: History, n: nat, token: InviteToken, invite: Invite)
    requires Run(h)
  {
    exists i: nat :: i < n && Made(h, i, token, invite)
  }

  ghost predicate RequestTraced(h: History, n: nat, id: RequestId, access: AccessRequest, owner: UserId)
    requires Run(h)
  {
    exists j: nat :: j < n && Asked(h, j, id, access, owner)
  }

  ghost predicate GrantTraced(h: History, n: nat, access: AccessRequest, owner: UserId, level: Level)
    requires Run(h)
  {
    || (level == Viewer && exists j: nat :: j < n && AutoGranted(h, j, access, owner))
    || (exists j: nat, k: nat :: k < n && Approved(h, j, k, access, owner, level))
  }

  ghost predicate InvitesTraced(h: History, n: nat)
    requires Run(h) && n <= |h.calls|
  {
    forall t | t in h.stores[n].invites :: InviteTraced(h, n, t, h.stores[n].invites[t])
  }

  ghost predicate RequestsTraced(h: History, n: nat)
    requires Run(h) && n <= |h.calls| && Sound(h.stores[n])
  {
    forall id | id in h.stores[n].requests ::
      RequestTraced(h, n, id, h.stores[n].requests[id], h.stores[n].db.docs[h.stores[n].requests[id].doc].owner)
  }

  ghost predicate GrantsTraced(h: History, n: nat)
    requires Run(h) && n <= |h.calls| && Sound(h.stores[n])
  {
    forall k | k in h.stores[n].db.perms && h.stores[n].db.perms[k] != Owner ::
      GrantTraced(h, n, AccessRequest(k.0, k.1), h.stores[n].db.docs[k.0].owner, h.stores[n].db.perms[k])
  }

  lemma {:induction false} ReachableSound(h: History, n: nat)
    requires Run(h) && n <= |h.calls|
    ensures Sound(h.stores[n])
  {
    if n > 0 {
      ReachableSound(h, n - 1);
      ServeKeepsSound(h.stores[n - 1], h.calls[n - 1], h.nows[n - 1]);
    }
  }

  /** What one call may do to the rows: keep some, and write at most the one it is about. */
  lemma RowsAfter(st: Store, c: Call, now: Instant)
    requires Sound(st) && Allowed(c)
    ensures var (st', r) := Sharing.Serve(st, c, now);
      && (forall t | t in st'.invites ::
            (t in st.invites && st'.invites[t] == st.invites[t]) || (c.CreateInvite? && r.Done? && c.token == t))
      && (forall id | id in st'.requests ::
            (id in st.requests && st'.requests[id] == st.requests[id]) || (c.UseInvite? && r.Done? && c.id == id))
  {}

  lemma InvitesStayTraced(h: History, n: nat)
    requires Run(h) && n < |h.calls| && Sound(h.stores[n]) && InvitesTraced(h, n)
    ensures InvitesTraced(h, n + 1)
  {
    var st, st' := h.stores[n], h.stores[n + 1];
    RowsAfter(st, h.calls[n], h.nows[n]);
    forall t | t in st'.invites ensures InviteTraced(h, n + 1, t, st'.invites[t]) {
      if t in st.invites && st'.invites[t] == st.invites[t] {
        assert InviteTraced(h, n, t, st.invites[t]);
      } else {
        assert Made(h, n, t, st'.invites[t]);
      }
    }
  }

  /** Ownership of a document a row belongs to is the same after the call as before. */
  lemma OwnerBefore(st: Store, c: Call, now: Instant, doc: DocId)
    requires Sound(st) && Allowed(c) && doc in st.db.docs && doc in Sharing.Serve(st, c, now).0.db.docs
    ensures Sharing.Serve(st, c, now).0.db.docs[doc].owner == st.db.docs[doc].owner
  {
    if c.Api? {
      ApiKeepsOwners(st.db, c.q, now, c.kept);
    }
  }

  lemma {:induction false} UsedBefore(h: History, n: nat)
    requires Run(h) && n < |h.calls| && InvitesTraced(h, n) && h.calls[n].UseInvite? && Done(h, n) && Sound(h.stores[n])
    ensures h.calls[n].token in h.stores[n].invites
    ensures exists i: nat :: Used(h, i, n, h.calls[n].user, h.stores[n].invites[h.calls[n].token])
  {
    var token := h.calls[n].token;
    var invite := h.stores[n].invites[token];
    assert InviteSound(h.stores[n], invite);
    assert InviteTraced(h, n, token, invite);
    var i: nat :| i < n && Made(h, i, token, invite);
    assert Used(h, i, n, h.calls[n].user, invite);
  }

  lemma RequestsStayTraced(h: History, n: nat)
    requires Run(h) && n < |h.calls| && Sound(h.stores[n]) && Sound(h.stores[n + 1])
    requires InvitesTraced(h, n) && RequestsTraced(h, n)
    ensures RequestsTraced(h, n + 1)
  {
    var st, st' := h.stores[n], h.stores[n + 1];
    RowsAfter(st, h.calls[n], h.nows[n]);
    forall id | id in st'.requests
      ensures RequestTraced(h, n + 1, id, st'.requests[id], st'.db.docs[st'.requests[id].doc].owner)
    {
      var access := st'.requests[id];
      if id in st.requests && access == st.requests[id] {
        OwnerBefore(st, h.calls[n], h.nows[n], access.doc);
        assert RequestTraced(h, n, id, access, st.db.docs[access.doc].owner);
      } else {
        NewRequest(st, h.calls[n], h.nows[n], id);
        RequestMade(h, n, access);
      }
    }
  }

  /** A request row that was not there before is the asking user's, for the document of the invite used. */
  lemma NewRequest(st: Store, c: Call, now: Instant, id: RequestId)
    requires Sound(st) && c.UseInvite? && c.id == id
    requires var st' := Sharing.Serve(st, c, now).0;
             id in st'.requests && !(id in st.requests && st'.requests[id] == st.requests[id])
    ensures var (st', r) := Sharing.Serve(st, c, now);
      && r.Done? && st'.db == st.db && c.token in st.invites && !st.invites[c.token].autoApprove
      && st'.requests[id] == AccessRequest(st.invites[c.token].doc, c.user)
  {}

  lemma RequestMade(h: History, n: nat, access: AccessRequest)
    requires Run(h) && n < |h.calls| && Sound(h.stores[n]) && InvitesTraced(h, n) && Done(h, n)
    requires h.calls[n].UseInvite? && h.calls[n].token in h.stores[n].invites
    requires !h.stores[n].invites[h.calls[n].token].autoApprove
    requires access == AccessRequest(h.stores[n].invites[h.calls[n].token].doc, h.calls[n].user)
    ensures access.doc in h.stores[n].db.docs
    ensures RequestTraced(h, n + 1, h.calls[n].id, access, h.stores[n].db.docs[access.doc].owner)
  {
    UsedBefore(h, n);
    assert InviteSound(h.stores[n], h.stores[n].invites[h.calls[n].token]);
    assert Asked(h, n, h.calls[n].id, access, h.stores[n].db.docs[access.doc].owner);
  }

  /** The other requests write OWNER rows only. */
  lemma ApiGrantsNobody(st: Store, c: Call, now: Instant, key: (DocId, UserId))
    requires Sound(st) && Allowed(c) && c.Api?
    requires var st' := Sharing.Serve(st, c, now).0; key in st'.db.perms && st'.db.perms[key] != Owner
    ensures key in st.db.perms && st.db.perms[key] == Sharing.Serve(st, c, now).0.db.perms[key]
  {}

  /** A row that was not there before, and is not the owner's, was written by an auto-approving invite or
  by an approval. */
  lemma NewGrant(st: Store, c: Call, now: Instant, key: (DocId, UserId))
    requires Sound(st) && !c.Api?
    requires var st' := Sharing.Serve(st, c, now).0;
             key in st'.db.perms && st'.db.perms[key] != Owner
             && !(key in st.db.perms && st.db.perms[key] == st'.db.perms[key])
    ensures var (st', r) := Sharing.Serve(st, c, now);
      && r.Done? && st'.db.docs == st.db.docs && key.0 in st.db.docs
      && ((c.UseInvite? && c.token in st.invites && st.invites[c.token].autoApprove
           && key == (st.invites[c.token].doc, c.user) && st'.db.perms[key] == Viewer)
          || (c.ProcessRequest? && c.approve && c.id in st.requests && c.user == st.db.docs[key.0].owner
              && st.requests[c.id] == AccessRequest(key.0, key.1) && st'.db.perms[key] == LevelAsked(c.editor)))
  {}

  lemma GrantsStayTraced(h: History, n: nat)
    requires Run(h) && n < |h.calls| && Sound(h.stores[n]) && Sound(h.stores[n + 1])
    requires InvitesTraced(h, n) && RequestsTraced(h, n) && GrantsTraced(h, n)
    ensures GrantsTraced(h, n + 1)
  {
    var st, st', c := h.stores[n], h.stores[n + 1], h.calls[n];
    forall k | k in st'.db.perms && st'.db.perms[k] != Owner
      ensures GrantTraced(h, n + 1, AccessRequest(k.0, k.1), st'.db.docs[k.0].owner, st'.db.perms[k])
    {
      var access, level := AccessRequest(k.0, k.1), st'.db.perms[k];
      if c.Api? {
        ApiGrantsNobody(st, c, h.nows[n], k);
      }
      if k in st.db.perms && st.db.perms[k] == level {
        OwnerBefore(st, c, h.nows[n], k.0);
        assert GrantTraced(h, n, access, st.db.docs[k.0].owner, level);
      } else {
        NewGrant(st, c, h.nows[n], k);
        GrantMade(h, n, access, level);
      }
    }
  }

  lemma GrantMade(h: History, n: nat, access: AccessRequest, level: Level)
    requires Run(h) && n < |h.calls| && Sound(h.stores[n]) && InvitesTraced(h, n) && RequestsTraced(h, n)
    requires Done(h, n) && access.doc in h.stores[n].db.docs
    requires var st, c := h.stores[n], h.calls[n];
      || (c.UseInvite? && c.token in st.invites && st.invites[c.token].autoApprove
          && st.invites[c.token].doc == access.doc && c.user == access.requester && level == Viewer)
      || (c.ProcessRequest? && c.approve && c.id in st.requests && c.user == st.db.docs[access.doc].owner
          && st.requests[c.id] == access && level == LevelAsked(c.editor))
    ensures GrantTraced(h, n + 1, access, h.stores[n].db.docs[access.doc].owner, level)
  {
    var st, c := h.stores[n], h.calls[n];
    var owner := st.db.docs[access.doc].owner;
    if c.UseInvite? {
      UsedBefore(h, n);
      assert InviteSound(st, st.invites[c.token]);
      assert AutoGranted(h, n, access, owner);
    } else {
      assert RequestTraced(h, n, c.id, access, owner);
      var j: nat :| j < n && Asked(h, j, c.id, access, owner);
      assert Approved(h, j, n, access, owner, level);
    }
  }

  lemma {:induction false} ReachableTraced(h: History, n: nat)
    requires Run(h) && n <= |h.calls|
    ensures Sound(h.stores[n]) && InvitesTraced(h, n) && RequestsTraced(h, n) && GrantsTraced(h, n)
  {
    ReachableSound(h, n);
    if n > 0 {
      ReachableTraced(h, n - 1);
      InvitesStayTraced(h, n - 1);
      RequestsStayTraced(h, n - 1);
      GrantsStayTraced(h, n - 1);
    }
  }

  // ---- The theorems ----

  /** In every reachable state the owner has the one OWNER row of a document, and every other row was
  earned: its user used, in time, an invite that the owner had created; either the invite approved by
  itself and the row says VIEWER, or the owner later approved the request with that very level. */
  lemma PermissionProvenance(h: History, n: nat, doc: DocId, user: UserId)
    requires Run(h) && n <= |h.calls| && doc in h.stores[n].db.docs
    ensures Sound(h.stores[n])
    ensures var (perms, owner) := (h.stores[n].db.perms, h.stores[n].db.docs[doc].owner);
      && ((doc, user) in perms && perms[(doc, user)] == Owner <==> user == owner)
      && ((doc, user) in perms && user != owner ==>
            GrantTraced(h, n, AccessRequest(doc, user), owner, perms[(doc, user)]))
  {
    ReachableTraced(h, n);
  }

  /** Whoever changes a document's content through the save path is its owner, or was approved as
  EDITOR by the owner after asking for access through an invite of the owner's. */
  lemma SaversWereApproved(h: History, n: nat, doc: DocId, user: UserId, content: string, kept: bool)
    requires Run(h) && n < |h.calls| && h.calls[n] == Api(Save(doc, user, content), kept) && Done(h, n)
    ensures doc in h.stores[n].db.docs
    ensures var owner := h.stores[n].db.docs[doc].owner;
      user == owner || exists j: nat, k: nat :: k < n && Approved(h, j, k, AccessRequest(doc, user), owner, Editor)
  {
    ReachableTraced(h, n);
    var owner := h.stores[n].db.docs[doc].owner;
    if user != owner {
      assert GrantTraced(h, n, AccessRequest(doc, user), owner, Editor);
    }
  }

  /** A row stays as first written for as long as its document exists: no later invite, request or
  approval lifts a VIEWER to EDITOR, or lowers anyone. */
  lemma {:induction false} LevelIsForLife(h: History, from: nat, n: nat, doc: DocId, user: UserId)
    requires Run(h) && from <= n <= |h.calls| && (doc, user) in h.stores[from].db.perms
    requires forall i | from <= i <= n :: doc in h.stores[i].db.docs
    ensures (doc, user) in h.stores[n].db.perms
    ensures h.stores[n].db.perms[(doc, user)] == h.stores[from].db.perms[(doc, user)]
  {
    if from < n {
      LevelIsForLife(h, from, n - 1, doc, user);
      ReachableSound(h, n - 1);
      assert doc in h.stores[n - 1 + 1].db.docs;
      RowsAreNeverChanged(h.stores[n - 1], h.calls[n - 1], h.nows[n - 1], doc, user);
    }
  }
}
