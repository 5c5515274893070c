/** What each event does to the interceptor's flag, subject and session and to the requests, told by events
alone, and whose token the session holds over whole histories
(frontend/src/app/core/jwt.interceptor.ts:48-107). */
module SessionLaws {
  import opened Wrappers
  import opened SilentRefresh

  /** Some refresh is waiting for this request, which loads its profile. */
  ghost predicate LoadsProfile(s: State, id: RequestId) {
    exists lead: RequestId :: Awaits(s, lead, id)
  }

  predicate Answers(e: Event, ok: bool) {
    (e.Answered? || e.RetryAnswered?) && e.ok == ok
  }

  /** A refused token, a profile that does not come, or the failing retry of a request that led a refresh. */
  ghost predicate FailsSession(s: State, e: Event)
    requires Enabled(s, e)
  {
    || e.TokenRefused?
    || (Answers(e, false) && LoadsProfile(s, e.id))
    || (e.RetryAnswered? && !e.ok && s.requests[e.id].status.lead)
  }

  /** A profile that comes. */
  ghost predicate CompletesRefresh(s: State, e: Event) {
    Answers(e, true) && LoadsProfile(s, e.id)
  }

  lemma AwaitedByWhom(s: State, id: RequestId)
    requires Sound(s) && id in s.requests
    ensures AwaitedBy(s, id).Some? <==> LoadsProfile(s, id)
    ensures AwaitedBy(s, id).Some? ==> forall lead: RequestId | Awaits(s, lead, id) :: AwaitedBy(s, id) == Some(lead)
  {
    forall lead: RequestId | Awaits(s, lead, id) ensures AwaitedBy(s, id) == Some(lead) {
      assert FlightOk(s, lead);
    }
  }

  lemma {:induction false} SettleKeepsLoggedOut(s: State, id: RequestId)
    requires id in s.requests && !s.refreshing && s.subject.None? && s.access.None?
    ensures var s' := Settle(s, id, false); !s'.refreshing && s'.subject.None? && s'.access.None?
    decreases |s.flights|
  {
    if AwaitedBy(s, id).Some? {
      var lead := AwaitedBy(s, id).value;
      SettleKeepsLoggedOut(GiveUp(SetStatus(s, id, Ended(false)).(flights := s.flights - {lead})), lead);
    }
  }

  /** A failing profile, at the end of the request that loads it, logs out. */
  lemma FailedProfileLogsOut(s: State, id: RequestId)
    requires id in s.requests && AwaitedBy(s, id).Some?
    ensures var s' := Settle(s, id, false); !s'.refreshing && s'.subject.None? && s'.access.None?
  {
    var lead := AwaitedBy(s, id).value;
    SettleKeepsLoggedOut(GiveUp(SetStatus(s, id, Ended(false)).(flights := s.flights - {lead})), lead);
  }

  ghost predicate Session(s: State, refreshing: bool, subject: Option<Token>, access: Option<Token>) {
    s.refreshing == refreshing && s.subject == subject && s.access == access
  }

  /** A failure logs out, lowers the flag and empties the subject. A profile that comes lowers the flag and
  puts its refresh's token into the subject. A token that comes is the session's from then on. A request
  answered 401 while no refresh is on raises the flag and empties the subject. Nothing else touches any
  of the three. */
  lemma SessionExactly(s: State, e: Event)
    requires Sound(s) && Enabled(s, e)
    ensures var s' := Next(s, e);
            if FailsSession(s, e) then Session(s', false, None, None)
            else if CompletesRefresh(s, e) then
              forall lead: RequestId | Awaits(s, lead, e.id) ::
                Session(s', false, Some(s.flights[lead].token), s.access)
            else if e.TokenCame? then Session(s', s.refreshing, s.subject, Some(e.token))
            else if e.Unauthorized? && !s.refreshing then Session(s', true, None, s.access)
            else Session(s', s.refreshing, s.subject, s.access)
  {
    match e
    case Answered(id, ok) => AnswerInSession(s, e);
    case RetryAnswered(id, ok) => AnswerInSession(s, e);
    case TokenRefused(lead) => SettleKeepsLoggedOut(GiveUp(s.(flights := s.flights - {lead})), lead);
    case Cancel(id) => UnsubscribeExactly(s, id);
    case _ =>
  }

  lemma AnswerInSession(s: State, e: Event)
    requires Sound(s) && Enabled(s, e) && (e.Answered? || e.RetryAnswered?)
    ensures var s' := Next(s, e);
            if FailsSession(s, e) then Session(s', false, None, None)
            else if CompletesRefresh(s, e) then
              forall lead: RequestId | Awaits(s, lead, e.id) ::
                Session(s', false, Some(s.flights[lead].token), s.access)
            else Session(s', s.refreshing, s.subject, s.access)
  {
    AwaitedByWhom(s, e.id);
    if !e.ok {
      var s1 := if e.RetryAnswered? && s.requests[e.id].status.lead then GiveUp(s) else s;
      if AwaitedBy(s, e.id).Some? {
        FailedProfileLogsOut(s1, e.id);
      } else if e.RetryAnswered? && s.requests[e.id].status.lead {
        SettleKeepsLoggedOut(s1, e.id);
      }
    }
  }

  // ---- What becomes of requests and refreshes ----

  /** Everything but the request `id` and the refresh `lead` is as it was. */
  ghost predicate OnlyTouches(s: State, s': State, id: RequestId, lead: RequestId) {
    && s'.requests.Keys == s.requests.Keys + {id}
    && (forall r | r in s.requests && r != id :: s'.requests[r] == s.requests[r])
    && (forall f | f != lead :: f in s'.flights <==> f in s.flights)
    && (forall f | f in s.flights && f != lead :: s'.flights[f] == s.flights[f])
  }

  /** A request is sent as the first attempt; so is a profile request, for the refresh that has its token. */
  lemma SendsExactly(s: State, e: Event)
    requires Enabled(s, e) && (e.Send? || e.TokenCame?)
    ensures var s' := Next(s, e);
            if e.Send? then
              && OnlyTouches(s, s', e.id, e.id) && s'.flights == s.flights
              && s'.requests[e.id] == Request(Sent, 0, None)
            else
              && OnlyTouches(s, s', e.profile, e.lead) && s'.requests[e.profile] == Request(Sent, 0, Some(e.lead))
              && e.lead in s'.flights && s'.flights[e.lead] == AwaitProfile(e.token, e.profile)
  {}

  /** A request answered 401 leads a refresh if none is on, and otherwise parks. It is never retried at
  once: while the flag is up the subject is empty. */
  lemma UnauthorizedExactly(s: State, id: RequestId)
    requires Sound(s) && Enabled(s, Unauthorized(id))
    ensures var s' := Next(s, Unauthorized(id));
            && OnlyTouches(s, s', id, id)
            && s'.requests[id] == s.requests[id].(status := if s.refreshing then Parked else Leading)
            && (if s.refreshing then s'.flights == s.flights else id in s'.flights && s'.flights[id] == AwaitToken)
  {}

  /** An answer to a request that loads no profile ends it, well or not, and nothing else. */
  lemma EndsExactly(s: State, e: Event)
    requires Sound(s) && Enabled(s, e) && (e.Answered? || e.RetryAnswered?) && !LoadsProfile(s, e.id)
    ensures var s' := Next(s, e);
            && OnlyTouches(s, s', e.id, e.id) && s'.flights == s.flights
            && s'.requests[e.id] == s.requests[e.id].(status := Ended(e.ok))
  {
    AwaitedByWhom(s, e.id);
  }

  /** What a request is when that of `id` has brought the profile for `lead`, with this token. */
  function Resumed(old': Request, r: RequestId, id: RequestId, lead: RequestId, token: Token): Request {
    if r == lead then Request(Retried(token, true), 1, old'.loads)
    else if r == id then old'.(status := Ended(true))
    else if old'.status == Parked then Request(Retried(token, false), 1, old'.loads)
    else old'
  }

  /** A profile that comes ends its request and the refresh; the leader and all that were parked are sent
  once more with the refresh's token, the leader within the refresh's error handler. */
  lemma CompletesExactly(s: State, e: Event, lead: RequestId)
    requires Sound(s) && Enabled(s, e) && Answers(e, true) && Awaits(s, lead, e.id)
    ensures var (s', token) := (Next(s, e), s.flights[lead].token);
            && s'.flights == s.flights - {lead} && s'.requests.Keys == s.requests.Keys
            && forall r | r in s.requests :: s'.requests[r] == Resumed(s.requests[r], r, e.id, lead, token)
  {
    AwaitedByWhom(s, e.id);
    assert FlightOk(s, lead);
    assert Next(s, e) == Complete(SetStatus(s, e.id, Ended(true)), lead);
    forall r | r in s.requests
      ensures Complete(SetStatus(s, e.id, Ended(true)), lead).requests[r]
           == Resumed(s.requests[r], r, e.id, lead, s.flights[lead].token)
    {
      CompletedFate(s, e.id, lead, r);
    }
  }

  lemma CompletedFate(s: State, id: RequestId, lead: RequestId, r: RequestId)
    requires id in s.requests && lead in s.requests && Awaits(s, lead, id) && r in s.requests
    requires RequestOk(s.requests[r]) && s.requests[lead].status == Leading
    ensures Complete(SetStatus(s, id, Ended(true)), lead).requests[r]
         == Resumed(s.requests[r], r, id, lead, s.flights[lead].token)
  {}

  /** Who fails with a request: the leader of the refresh it loads the profile for, and, if that is itself
  loading a profile, the next leader, and so on. */
  function Fallen(requests: map<RequestId, Request>, flights: map<RequestId, Flight>, id: RequestId): set<RequestId>
    requires id in requests
    decreases |flights|
  {
    match requests[id].loads
    case None => {}
    case Some(lead) =>
      if lead in requests && lead in flights && flights[lead].AwaitProfile? && flights[lead].profile == id then
        {lead} + Fallen(requests, flights - {lead}, lead)
      else {}
  }

  /** A request that fails ends, and with it those leaders and their refreshes. Whoever is parked stays so,
  and nobody else is touched. */
  lemma FailsExactly(s: State, e: Event)
    requires Enabled(s, e) && (e.TokenRefused? || Answers(e, false))
    ensures var id := if e.TokenRefused? then e.lead else e.id;
            var flights := if e.TokenRefused? then s.flights - {id} else s.flights;
            var fallen := Fallen(s.requests, flights, id);
            var s' := Next(s, e);
            && s'.flights == flights - fallen && s'.requests.Keys == s.requests.Keys
            && forall r | r in s.requests ::
                 s'.requests[r] == EndedIf(s.requests[r], r == id || r in fallen)
  {
    hide Settle, Fallen;
    var id := if e.TokenRefused? then e.lead else e.id;
    var s1 := if e.TokenRefused? then GiveUp(s.(flights := s.flights - {id}))
              else if e.RetryAnswered? && s.requests[id].status.lead then GiveUp(s) else s;
    SettleFells(s1, s1.requests, id);
    forall r | r in s.requests
      ensures Next(s, e).requests[r] == EndedIf(s.requests[r], r == id || r in Fallen(s.requests, s1.flights, id))
    {
      SettleEnds(s1, s1.requests, id, r);
    }
  }

  function EndedIf(r: Request, failed: bool): Request {
    if failed then r.(status := Ended(false)) else r
  }

  lemma {:induction false} SettleFells(s: State, before: map<RequestId, Request>, id: RequestId)
    requires id in s.requests && before.Keys == s.requests.Keys
    requires forall r | r in before :: before[r].loads == s.requests[r].loads
    ensures Settle(s, id, false).flights == s.flights - Fallen(before, s.flights, id)
    ensures Settle(s, id, false).requests.Keys == s.requests.Keys
    decreases |s.flights|
  {
    hide Settle, Fallen;
    if AwaitedBy(s, id).Some? {
      var lead := AwaitedBy(s, id).value;
      var s1 := GiveUp(SetStatus(s, id, Ended(false)).(flights := s.flights - {lead}));
      SettleFells(s1, before, lead);
      WithoutBoth(s.flights, lead, Fallen(before, s1.flights, lead));
      FallenNext(s, before, id, lead);
    } else {
      NoneFallen(s, before, id);
    }
  }

  lemma FallenNext(s: State, before: map<RequestId, Request>, id: RequestId, lead: RequestId)
    requires id in s.requests && before.Keys == s.requests.Keys && before[id].loads == s.requests[id].loads
    requires AwaitedBy(s, id) == Some(lead)
    ensures Fallen(before, s.flights, id) == {lead} + Fallen(before, s.flights - {lead}, lead)
    ensures Settle(s, id, false)
         == Settle(GiveUp(SetStatus(s, id, Ended(false)).(flights := s.flights - {lead})), lead, false)
  {}

  lemma NoneFallen(s: State, before: map<RequestId, Request>, id: RequestId)
    requires id in s.requests && before.Keys == s.requests.Keys && before[id].loads == s.requests[id].loads
    requires AwaitedBy(s, id).None?
    ensures Fallen(before, s.flights, id) == {} && Settle(s, id, false) == SetStatus(s, id, Ended(false))
  {}

  lemma WithoutBoth(flights: map<RequestId, Flight>, lead: RequestId, others: set<RequestId>)
    ensures (flights - {lead}) - others == flights - ({lead} + others)
  {}

  lemma {:induction false} SettleEnds(s: State, before: map<RequestId, Request>, id: RequestId, r: RequestId)
    requires id in s.requests && before.Keys == s.requests.Keys && r in s.requests
    requires forall q | q in before :: before[q].loads == s.requests[q].loads
    ensures r in Settle(s, id, false).requests
    ensures Settle(s, id, false).requests[r] == EndedIf(s.requests[r], r == id || r in Fallen(before, s.flights, id))
    decreases |s.flights|
  {
    if AwaitedBy(s, id).Some? {
      var lead := AwaitedBy(s, id).value;
      SettleEnds(GiveUp(SetStatus(s, id, Ended(false)).(flights := s.flights - {lead})), before, lead, r);
    }
  }

  // ---- The session over whole histories ----

  /** Who is logged in holds the last token that came, and nothing has failed since; who is not has been
  logged out, or was never logged in, since any token came. */
  lemma {:induction false} SessionIsLastToken(ss: seq<State>, es: seq<Event>, n: nat)
    requires Run(ss, es) && n <= |es|
    ensures ss[n].access.Some? ==> exists w ::
              && 0 <= w < n && es[w].TokenCame? && ss[n].access == Some(es[w].token)
              && forall i | w < i < n :: !es[i].TokenCame? && !FailsSession(ss[i], es[i])
    ensures ss[n].access.None? ==>
              forall w | 0 <= w < n && es[w].TokenCame? :: exists i :: w < i < n && FailsSession(ss[i], es[i])
  {
    if n > 0 {
      hide Next, SoundBut;
      SessionIsLastToken(ss, es, n - 1);
      AtMostOneRetry(ss, es, n - 1, 0);
      SessionExactly(ss[n - 1], es[n - 1]);
    }
  }
}
